/**
 * The few java.lang.String and commons-lang StringUtils operations the XACML
 * front end builds on, with Java's `null` made explicit: a Java string
 * reference is an `Option<string>`, and string concatenation writes `null` as
 * the four characters "null".
 */
module JavaText {

  datatype Option<T> = None | Some(value: T)

  /** A Java `String` reference, possibly null. */
  type JString = Option<string>

  /** What `"" + x` gives for a possibly-null string. */
  function Str(x: JString): (r: string)
    ensures x.Some? ==> r == x.value
    ensures x.None? ==> r == "null"
  {
    match x
    case None => "null"
    case Some(s) => s
  }

  predicate StartsWith(s: string, prefix: string) {
    |prefix| <= |s| && s[..|prefix|] == prefix
  }

  // ---------------------------------------------------------------------------
  // String.trim and StringUtils.isBlank

  /** `String.trim` strips every character up to and including the space. */
  predicate IsTrimmable(c: char) {
    c <= ' '
  }

  predicate AllTrimmable(s: string) {
    forall k :: 0 <= k < |s| ==> IsTrimmable(s[k])
  }

  /** `s` neither starts nor ends with a character `trim` would strip. */
  predicate Trimmed(s: string) {
    s == [] || (!IsTrimmable(s[0]) && !IsTrimmable(s[|s| - 1]))
  }

  function TrimStart(s: string): (r: string)
    ensures |r| <= |s| && r == s[|s| - |r|..] && AllTrimmable(s[..|s| - |r|])
    ensures r == [] || !IsTrimmable(r[0])
  {
    if s != [] && IsTrimmable(s[0]) then TrimStart(s[1..]) else s
  }

  function TrimEnd(s: string): (r: string)
    ensures |r| <= |s| && r == s[..|r|] && AllTrimmable(s[|r|..])
    ensures r == [] || !IsTrimmable(r[|r| - 1])
  {
    if s != [] && IsTrimmable(s[|s| - 1]) then TrimEnd(s[..|s| - 1]) else s
  }

  /** `String.trim`: `s` without the strippable characters at either end. */
  function Trim(s: string): (r: string)
    ensures Trimmed(r) && |r| <= |s|
  {
    TrimEnd(TrimStart(s))
  }

  lemma {:induction false} TrimStartPadded(w: string, x: string)
    requires AllTrimmable(w) && (x == [] || !IsTrimmable(x[0]))
    ensures TrimStart(w + x) == x
  {
    if w != [] {
      assert (w + x)[1..] == w[1..] + x;
      TrimStartPadded(w[1..], x);
    } else {
      assert w + x == x;
    }
  }

  lemma {:induction false} TrimEndPadded(x: string, w: string)
    requires AllTrimmable(w) && (x == [] || !IsTrimmable(x[|x| - 1]))
    ensures TrimEnd(x + w) == x
  {
    if w != [] {
      assert (x + w)[..|x + w| - 1] == x + w[..|w| - 1];
      TrimEndPadded(x, w[..|w| - 1]);
    } else {
      assert x + w == x;
    }
  }

  /** Trimming a string padded with strippable characters gives it back. */
  lemma TrimPadded(w1: string, x: string, w2: string)
    requires AllTrimmable(w1) && AllTrimmable(w2) && Trimmed(x)
    ensures Trim(w1 + x + w2) == x
  {
    if x == [] {
      assert w1 + x + w2 == w1 + w2;
      assert AllTrimmable(w1 + w2);
      TrimStartPadded(w1 + w2, "");
      assert w1 + w2 + "" == w1 + w2;
    } else {
      assert w1 + x + w2 == w1 + (x + w2);
      TrimStartPadded(w1, x + w2);
      TrimEndPadded(x, w2);
    }
  }

  /**
   * `Character.isWhitespace`: the ASCII whitespace controls, the space, and the
   * Unicode space, line and paragraph separators other than the no-break spaces.
   */
  predicate IsWhitespace(c: char) {
    ('\t' <= c <= '\r') || ('\U{1C}' <= c <= ' ') ||
    c == '\U{1680}' || ('\U{2000}' <= c <= '\U{2006}') || ('\U{2008}' <= c <= '\U{200A}') ||
    c == '\U{2028}' || c == '\U{2029}' || c == '\U{205F}' || c == '\U{3000}'
  }

  /** `StringUtils.isBlank`: null, empty, or whitespace only. */
  predicate IsBlank(x: JString) {
    x.None? || forall k :: 0 <= k < |x.value| ==> IsWhitespace(x.value[k])
  }

  // ---------------------------------------------------------------------------
  // indexOf, contains, replaceAll of one character

  /** `String.indexOf` of a character: its first position, or -1. */
  function IndexOf(s: string, c: char): (r: int)
    ensures -1 <= r < |s|
    ensures r == -1 <==> c !in s
    ensures r >= 0 ==> s[r] == c && c !in s[..r]
  {
    if s == [] then -1
    else if s[0] == c then 0
    else
      var r := IndexOf(s[1..], c);
      if r == -1 then -1 else r + 1
  }

  lemma {:induction false} IndexOfFirst(x: string, c: char, y: string)
    requires c !in x
    ensures IndexOf(x + [c] + y, c) == |x|
  {
    var s := x + [c] + y;
    assert s[|x|] == c;
    assert forall k :: 0 <= k < |x| ==> s[k] == x[k];
  }

  /** `s.replaceAll("c", "")` for a character that is not special in a regular expression. */
  function Remove(s: string, c: char): (r: string)
    ensures c !in r && |r| <= |s|
  {
    if s == [] then ""
    else if s[0] == c then Remove(s[1..], c) else [s[0]] + Remove(s[1..], c)
  }

  lemma {:induction false} RemoveAbsent(s: string, c: char)
    requires c !in s
    ensures Remove(s, c) == s
  {
    if s != [] {
      RemoveAbsent(s[1..], c);
    }
  }

  lemma {:induction false} RemoveConcat(x: string, y: string, c: char)
    ensures Remove(x + y, c) == Remove(x, c) + Remove(y, c)
  {
    if x != [] {
      assert (x + y)[1..] == x[1..] + y;
      RemoveConcat(x[1..], y, c);
    } else {
      assert x + y == y;
    }
  }

  // ---------------------------------------------------------------------------
  // String.split on a single ordinary character

  /** The text between consecutive occurrences of `c`, every piece kept. */
  function Pieces(s: string, c: char): (r: seq<string>)
    ensures |r| >= 1
    ensures forall i :: 0 <= i < |r| ==> c !in r[i]
    decreases |s|
  {
    var k := IndexOf(s, c);
    if k < 0 then [s]
    else
      var first, rest := s[..k], Pieces(s[k + 1..], c);
      assert c !in first;
      assert forall i :: 0 < i <= |rest| ==> ([first] + rest)[i] == rest[i - 1];
      [first] + rest
  }

  /** Pieces written back with `c` between them. */
  function JoinWith(ps: seq<string>, c: char): string
    requires ps != []
  {
    if |ps| == 1 then ps[0] else ps[0] + [c] + JoinWith(ps[1..], c)
  }

  /** Splitting and joining are inverse: `Pieces` loses nothing. */
  lemma {:induction false} PiecesJoin(s: string, c: char)
    ensures JoinWith(Pieces(s, c), c) == s
    decreases |s|
  {
    var k := IndexOf(s, c);
    if k >= 0 {
      var x, y := s[..k], s[k + 1..];
      var qs := Pieces(y, c);
      PiecesJoin(y, c);
      var ps := [x] + qs;
      assert Pieces(s, c) == ps;
      assert |ps| > 1 && ps[0] == x && ps[1..] == qs;
      assert JoinWith(ps, c) == x + [c] + JoinWith(qs, c);
      SplitAround(s, k);
    }
  }

  /** A string is what comes before, at and after a position. */
  lemma SplitAround(s: string, k: int)
    requires 0 <= k < |s|
    ensures s == s[..k] + [s[k]] + s[k + 1..]
  {
    assert s[k..] == [s[k]] + s[k + 1..];
    assert s == s[..k] + s[k..];
  }

  /** Joining pieces without `c` and splitting gives the pieces back. */
  lemma {:induction false} JoinPieces(ps: seq<string>, c: char)
    requires ps != [] && forall i :: 0 <= i < |ps| ==> c !in ps[i]
    ensures Pieces(JoinWith(ps, c), c) == ps
    decreases |ps|
  {
    if |ps| > 1 {
      var x, y := ps[0], JoinWith(ps[1..], c);
      var s := x + [c] + y;
      IndexOfFirst(x, c, y);
      assert s[..|x|] == x && s[|x| + 1..] == y;
      JoinPieces(ps[1..], c);
      assert ps == [x] + ps[1..];
    }
  }

  /** Drops the empty strings at the end. */
  function DropTrailingEmpty(ps: seq<string>): (r: seq<string>)
    ensures |r| <= |ps| && r == ps[..|r|]
    ensures r == [] || r[|r| - 1] != []
    ensures forall i :: |r| <= i < |ps| ==> ps[i] == []
  {
    if ps == [] || ps[|ps| - 1] != [] then ps else DropTrailingEmpty(ps[..|ps| - 1])
  }

  /**
   * `s.split(",")` and the like: when `c` does not occur the result is `[s]`
   * (so `"".split(",")` is `[""]`); otherwise the pieces without the empty
   * strings at the end.
   */
  function Split(s: string, c: char): (r: seq<string>)
    ensures forall i :: 0 <= i < |r| ==> c !in r[i]
  {
    if c !in s then [s] else DropTrailingEmpty(Pieces(s, c))
  }

  /** Splitting the join of pieces that contain no `c` and do not end empty gives them back. */
  lemma SplitJoin(ps: seq<string>, c: char)
    requires ps != [] && ps[|ps| - 1] != [] && forall i :: 0 <= i < |ps| ==> c !in ps[i]
    ensures Split(JoinWith(ps, c), c) == ps
  {
    JoinPieces(ps, c);
  }
}

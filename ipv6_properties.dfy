/**
 * Consequences of `IPv6.Characterization` that the table of addresses in
 * ValidateIPAddressTest exercises one case at a time: the accepted alphabet,
 * group lengths, the single "::", colons at the ends, the place of an embedded
 * IPv4 address and the number of groups.
 */
module IPv6Properties {
  import opened IPv6

  // ---------------------------------------------------------------------------
  // Shapes of strings

  predicate Alphabet(t: string) {
    forall k :: 0 <= k < |t| ==> IsHexDigit(t[k]) || t[k] == ':' || t[k] == '.'
  }

  predicate NoColon(t: string) {
    forall k :: 0 <= k < |t| ==> t[k] != ':'
  }

  predicate NoDot(t: string) {
    forall k :: 0 <= k < |t| ==> t[k] != '.'
  }

  /** `t` has "::" at position `k`. */
  predicate PairAt(t: string, k: int) {
    0 <= k && k + 1 < |t| && t[k] == ':' && t[k + 1] == ':'
  }

  predicate NoPair(t: string) {
    forall k :: 0 <= k < |t| ==> !PairAt(t, k)
  }

  /** Neither end of `t` is a colon. */
  predicate Edges(t: string) {
    t != [] ==> t[0] != ':' && t[|t| - 1] != ':'
  }

  /** No colon follows a dot. */
  predicate ColonsBeforeDots(t: string) {
    forall k, m :: 0 <= k < m < |t| && t[k] == '.' ==> t[m] != ':'
  }

  /** The number of hex digits immediately before position `k`. */
  function HexRunBefore(t: string, k: nat): (r: nat)
    requires k <= |t|
    ensures r <= k
  {
    if k == 0 || !IsHexDigit(t[k - 1]) then 0 else HexRunBefore(t, k - 1) + 1
  }

  predicate ShortRuns(t: string) {
    forall k :: 0 <= k <= |t| ==> HexRunBefore(t, k) <= 4
  }

  // ---------------------------------------------------------------------------
  // Shapes across concatenation

  lemma {:induction false} RunBeforeLeft(x: string, y: string, k: nat)
    requires k <= |x|
    ensures HexRunBefore(x + y, k) == HexRunBefore(x, k)
  {
    if k > 0 {
      assert (x + y)[k - 1] == x[k - 1];
      RunBeforeLeft(x, y, k - 1);
    }
  }

  lemma {:induction false} RunBeforeRight(x: string, c: char, y: string, m: nat)
    requires !IsHexDigit(c) && m <= |y|
    ensures HexRunBefore(x + [c] + y, |x| + 1 + m) == HexRunBefore(y, m)
  {
    var t := x + [c] + y;
    if m == 0 {
      assert t[|x|] == c;
    } else {
      assert t[|x| + m] == y[m - 1];
      RunBeforeRight(x, c, y, m - 1);
    }
  }

  lemma ShortRunsSep(x: string, c: char, y: string)
    requires ShortRuns(x) && ShortRuns(y) && !IsHexDigit(c)
    ensures ShortRuns(x + [c] + y)
  {
    var t := x + [c] + y;
    forall k | 0 <= k <= |t|
      ensures HexRunBefore(t, k) <= 4
    {
      if k <= |x| {
        assert t == x + ([c] + y);
        RunBeforeLeft(x, [c] + y, k);
      } else {
        RunBeforeRight(x, c, y, k - |x| - 1);
      }
    }
  }

  lemma ShortRunsOfShort(t: string)
    requires |t| <= 4
    ensures ShortRuns(t)
  {
  }

  /** The shapes a hex group or a run of them has, joined by a separator. */
  predicate Tidy(t: string) {
    Alphabet(t) && NoPair(t) && Edges(t) && ColonsBeforeDots(t) && ShortRuns(t)
  }

  lemma TidySep(x: string, c: char, y: string)
    requires Tidy(x) && Tidy(y) && (c == ':' || c == '.')
    requires c == ':' ==> NoDot(x) && x != [] && y != []
    requires c == '.' ==> NoColon(y)
    ensures Tidy(x + [c] + y)
  {
    SepLetters(x, c, y);
    SepPairs(x, c, y);
    ShortRunsSep(x, c, y);
  }

  lemma SepLetters(x: string, c: char, y: string)
    requires Alphabet(x) && Alphabet(y) && ColonsBeforeDots(x) && ColonsBeforeDots(y) && Edges(x) && Edges(y)
    requires c == ':' || c == '.'
    requires c == ':' ==> NoDot(x) && x != [] && y != []
    requires c == '.' ==> NoColon(y)
    ensures var t := x + [c] + y; Alphabet(t) && ColonsBeforeDots(t) && Edges(t)
  {
    var t := x + [c] + y;
    assert forall k :: 0 <= k < |x| ==> t[k] == x[k];
    assert forall k :: 0 <= k < |y| ==> t[|x| + 1 + k] == y[k];
    assert t[|x|] == c;
    SepOrder(x, c, y);
  }

  /** No colon follows a dot across the separator. */
  lemma SepOrder(x: string, c: char, y: string)
    requires ColonsBeforeDots(x) && ColonsBeforeDots(y) && (c == ':' || c == '.')
    requires c == ':' ==> NoDot(x)
    requires c == '.' ==> NoColon(y)
    ensures ColonsBeforeDots(x + [c] + y)
  {
    var t := x + [c] + y;
    forall k, m | 0 <= k < m < |t| && t[k] == '.'
      ensures t[m] != ':'
    {
      if m < |x| {
        assert t[k] == x[k] && t[m] == x[m];
      } else if k < |x| {
        assert t[k] == x[k];
        if m > |x| {
          assert t[m] == y[m - |x| - 1];
        }
      } else if k > |x| {
        assert t[k] == y[k - |x| - 1] && t[m] == y[m - |x| - 1];
      } else {
        assert t[m] == y[m - |x| - 1];
      }
    }
  }

  lemma SepPairs(x: string, c: char, y: string)
    requires NoPair(x) && NoPair(y) && Edges(x) && Edges(y)
    requires c == ':' ==> x != [] && y != []
    ensures NoPair(x + [c] + y)
  {
    var t := x + [c] + y;
    assert forall k :: 0 <= k < |x| ==> t[k] == x[k];
    assert forall k :: 0 <= k < |y| ==> t[|x| + 1 + k] == y[k];
    assert t[|x|] == c;
    assert forall k :: 0 <= k && k + 1 < |x| ==> (PairAt(t, k) ==> PairAt(x, k));
    assert forall k :: |x| + 1 <= k < |t| ==> (PairAt(t, k) ==> PairAt(y, k - |x| - 1));
  }

  lemma NoDotSep(x: string, c: char, y: string)
    requires NoDot(x) && NoDot(y) && c != '.'
    ensures NoDot(x + [c] + y)
  {
    var t := x + [c] + y;
    assert forall k :: 0 <= k < |y| ==> t[|x| + 1 + k] == y[k];
  }

  lemma NoColonSep(x: string, c: char, y: string)
    requires NoColon(x) && NoColon(y) && c != ':'
    ensures NoColon(x + [c] + y)
  {
    var t := x + [c] + y;
    assert forall k :: 0 <= k < |y| ==> t[|x| + 1 + k] == y[k];
  }

  // ---------------------------------------------------------------------------
  // Shapes of the parts of an address

  lemma GroupTidy(g: string)
    requires IsGroup(g)
    ensures Tidy(g) && NoDot(g) && g != []
  {
    ShortRunsOfShort(g);
  }

  lemma {:induction false} JoinTidy(gs: seq<string>)
    requires gs != [] && forall i :: 0 <= i < |gs| ==> IsGroup(gs[i])
    ensures Tidy(Join(gs)) && NoDot(Join(gs)) && Join(gs) != []
    decreases |gs|
  {
    GroupTidy(gs[0]);
    if |gs| > 1 {
      JoinTidy(gs[1..]);
      TidySep(gs[0], ':', Join(gs[1..]));
      NoDotSep(gs[0], ':', Join(gs[1..]));
    }
  }

  lemma OctetTidy(o: string)
    requires IsDecOctet(o)
    ensures Tidy(o) && NoColon(o) && o != []
  {
    ShortRunsOfShort(o);
  }

  lemma {:induction false} DotsTidy(os: seq<string>)
    requires os != [] && forall i :: 0 <= i < |os| ==> IsDecOctet(os[i])
    ensures Tidy(Dots(os)) && NoColon(Dots(os))
    decreases |os|
  {
    OctetTidy(os[0]);
    if |os| > 1 {
      DotsTidy(os[1..]);
      TidySep(os[0], '.', Dots(os[1..]));
      NoColonSep(os[0], '.', Dots(os[1..]));
    }
  }

  lemma GroupsThenQuadTidy(gs: seq<string>, quad: seq<string>)
    requires forall i :: 0 <= i < |gs| ==> IsGroup(gs[i])
    requires quad == [] || (|quad| == 4 && forall i :: 0 <= i < 4 ==> IsDecOctet(quad[i]))
    ensures Tidy(GroupsThenQuad(gs, quad))
  {
    if quad != [] {
      DottedQuadIsDots(quad);
      DotsTidy(quad);
      assert DottedQuad(quad) != [] by {
        assert IsDecOctet(quad[0]);
      }
      if gs != [] {
        JoinTidy(gs);
        TidySep(Join(gs), ':', DottedQuad(quad));
      }
    } else if gs != [] {
      JoinTidy(gs);
    }
  }

  /** Groups, "::", then groups or a quad: the only "::" is the one written. */
  lemma ElidedShape(x: string, y: string)
    requires Tidy(x) && NoDot(x) && Tidy(y)
    ensures var t := x + "::" + y;
      Alphabet(t) && ShortRuns(t) && ColonsBeforeDots(t) &&
      (forall k :: PairAt(t, k) ==> k == |x|) &&
      (t[0] == ':' ==> x == []) && (t[|t| - 1] == ':' ==> y == [])
  {
    ElidedLetters(x, y);
    ElidedPairs(x, y);
    ShortRunsElided(x, y);
  }

  lemma ElidedLetters(x: string, y: string)
    requires Alphabet(x) && NoDot(x) && Alphabet(y) && ColonsBeforeDots(y)
    ensures Alphabet(x + "::" + y) && ColonsBeforeDots(x + "::" + y)
  {
    var t := x + "::" + y;
    assert forall k :: 0 <= k < |x| ==> t[k] == x[k];
    assert forall k :: 0 <= k < |y| ==> t[|x| + 2 + k] == y[k];
    assert t[|x|] == ':' && t[|x| + 1] == ':';
  }

  lemma ElidedPairs(x: string, y: string)
    requires NoPair(x) && Edges(x) && NoPair(y) && Edges(y)
    ensures var t := x + "::" + y;
      (forall k :: PairAt(t, k) ==> k == |x|) &&
      (t[0] == ':' ==> x == []) && (t[|t| - 1] == ':' ==> y == [])
  {
    var t := x + "::" + y;
    assert forall k :: 0 <= k < |x| ==> t[k] == x[k];
    assert forall k :: 0 <= k < |y| ==> t[|x| + 2 + k] == y[k];
    assert t[|x|] == ':' && t[|x| + 1] == ':';
    assert forall k :: 0 <= k < |x| ==> (PairAt(t, k) ==> k + 1 == |x| || PairAt(x, k));
    assert forall k :: |x| + 2 <= k < |t| ==> (PairAt(t, k) ==> PairAt(y, k - |x| - 2));
  }

  lemma ShortRunsElided(x: string, y: string)
    requires ShortRuns(x) && ShortRuns(y)
    ensures ShortRuns(x + "::" + y)
  {
    ShortRunsSep(x, ':', []);
    assert x + [':'] + [] == x + [':'];
    ShortRunsSep(x + [':'], ':', y);
    assert x + [':'] + [':'] + y == x + "::" + y;
  }

  /** The shapes every text form of a well-formed address has. */
  lemma RenderShape(a: Address)
    requires WellFormed(a)
    ensures var t := Render(a);
      Alphabet(t) && ShortRuns(t) && ColonsBeforeDots(t) && !NoColon(t) &&
      (forall k, m :: PairAt(t, k) && PairAt(t, m) ==> k == m) &&
      (t[0] == ':' ==> PairAt(t, 0)) && (t[|t| - 1] == ':' ==> PairAt(t, |t| - 2))
  {
    var t := Render(a);
    var y := GroupsThenQuad(a.tail, a.quad);
    GroupsThenQuadTidy(a.tail, a.quad);
    if a.elided {
      var x := if a.head == [] then "" else Join(a.head);
      if a.head != [] {
        JoinTidy(a.head);
      }
      ElidedShape(x, y);
      assert t == x + "::" + y;
      assert t[|x|] == ':';
    } else {
      var g0, rest := a.head[0], Join(a.head[1..]);
      GroupsThenQuadTidy(a.head, a.quad);
      assert |a.head| >= 6;
      assert Join(a.head) == g0 + ":" + rest;
      assert t[..|Join(a.head)|] == Join(a.head);
      assert t[|g0|] == ':';
    }
  }

  // ---------------------------------------------------------------------------
  // What every accepted string looks like

  /**
   * An accepted string uses hex digits, ':' and '.' only, has at most four hex
   * digits in a row, contains a colon, has no colon after a dot, contains "::"
   * at most once, and starts or ends with a colon only as part of "::".
   */
  lemma AcceptedShape(s: string)
    requires IsIPv6(s)
    ensures Alphabet(s) && ShortRuns(s) && ColonsBeforeDots(s) && !NoColon(s)
    ensures forall k, m :: PairAt(s, k) && PairAt(s, m) ==> k == m
    ensures s[0] == ':' ==> PairAt(s, 0)
    ensures s[|s| - 1] == ':' ==> PairAt(s, |s| - 2)
  {
    var a := AcceptedIsRendering(s);
    RenderShape(a);
  }

  lemma EmptyRejected()
    ensures !IsIPv6("")
  {
  }

  lemma BadCharRejected(s: string, k: nat)
    requires k < |s| && !IsHexDigit(s[k]) && s[k] != ':' && s[k] != '.'
    ensures !IsIPv6(s)
  {
    if IsIPv6(s) {
      AcceptedShape(s);
    }
  }

  lemma {:induction false} RunAtLeast(t: string, k: nat, m: nat)
    requires m <= k <= |t| && forall i :: k - m <= i < k ==> IsHexDigit(t[i])
    ensures HexRunBefore(t, k) >= m
  {
    if m > 0 {
      RunAtLeast(t, k - 1, m - 1);
    }
  }

  /** Five hex digits in a row never form part of an accepted address. */
  lemma FiveHexDigitsRejected(x: string, g: string, y: string)
    requires |g| == 5 && forall i :: 0 <= i < 5 ==> IsHexDigit(g[i])
    ensures !IsIPv6(x + g + y)
  {
    var s := x + g + y;
    if IsIPv6(s) {
      AcceptedShape(s);
      assert forall i :: |x| <= i < |x| + 5 ==> s[i] == g[i - |x|];
      RunAtLeast(s, |x| + 5, 5);
    }
  }

  /** "::" at most once, so ":::" and two separate "::" are rejected. */
  lemma TwoElisionsRejected(s: string, k: nat, m: nat)
    requires k != m && PairAt(s, k) && PairAt(s, m)
    ensures !IsIPv6(s)
  {
    if IsIPv6(s) {
      AcceptedShape(s);
    }
  }

  lemma TripleColonRejected(x: string, y: string)
    ensures !IsIPv6(x + ":::" + y)
  {
    var s := x + ":::" + y;
    assert s[|x|] == ':' && s[|x| + 1] == ':' && s[|x| + 2] == ':';
    TwoElisionsRejected(s, |x|, |x| + 1);
  }

  /** A colon at either end that is not part of "::". */
  lemma LoneColonAtEndsRejected(s: string)
    requires s != []
    requires (s[0] == ':' && !PairAt(s, 0)) || (s[|s| - 1] == ':' && !PairAt(s, |s| - 2))
    ensures !IsIPv6(s)
  {
    if IsIPv6(s) {
      AcceptedShape(s);
    }
  }

  /** A string without colons, such as a bare IPv4 address, is rejected. */
  lemma NoColonRejected(s: string)
    requires NoColon(s)
    ensures !IsIPv6(s)
  {
    if IsIPv6(s) {
      AcceptedShape(s);
    }
  }

  /** An embedded IPv4 address ends the address: a colon after a dot is rejected. */
  lemma ColonAfterDotRejected(s: string, k: nat, m: nat)
    requires k < m < |s| && s[k] == '.' && s[m] == ':'
    ensures !IsIPv6(s)
  {
    if IsIPv6(s) {
      AcceptedShape(s);
    }
  }

  // ---------------------------------------------------------------------------
  // Counting pieces

  /** A text form without "::" is accepted exactly when it has eight pieces. */
  lemma PiecesWithoutElision(gs: seq<string>, quad: seq<string>)
    requires forall i :: 0 <= i < |gs| ==> IsGroup(gs[i])
    requires quad == [] || (|quad| == 4 && forall i :: 0 <= i < 4 ==> IsDecOctet(quad[i]))
    requires gs != [] || quad != []
    ensures IsIPv6(GroupsThenQuad(gs, quad)) <==> |gs| + (if quad == [] then 0 else 2) == 8
  {
    CountWithoutElision(Address(gs, false, [], quad));
  }

  /** Eight groups are accepted; fewer or more without "::" are not. */
  lemma GroupCount(gs: seq<string>)
    requires gs != [] && forall i :: 0 <= i < |gs| ==> IsGroup(gs[i])
    ensures IsIPv6(Join(gs)) <==> |gs| == 8
  {
    PiecesWithoutElision(gs, []);
  }

  /** An embedded IPv4 address counts as two pieces: six groups must precede it. */
  lemma GroupsThenIPv4Count(gs: seq<string>, quad: seq<string>)
    requires gs != [] && forall i :: 0 <= i < |gs| ==> IsGroup(gs[i])
    requires |quad| == 4 && forall i :: 0 <= i < 4 ==> IsDecOctet(quad[i])
    ensures IsIPv6(Join(gs) + ":" + DottedQuad(quad)) <==> |gs| == 6
  {
    PiecesWithoutElision(gs, quad);
  }

  /** With "::" at least one zero piece is left out, so at most seven are written. */
  lemma PiecesAroundElision(hs: seq<string>, ts: seq<string>, quad: seq<string>)
    requires forall i :: 0 <= i < |hs| ==> IsGroup(hs[i])
    requires forall i :: 0 <= i < |ts| ==> IsGroup(ts[i])
    requires quad == [] || (|quad| == 4 && forall i :: 0 <= i < 4 ==> IsDecOctet(quad[i]))
    ensures IsIPv6(Render(Address(hs, true, ts, quad))) <==>
      |hs| + |ts| + (if quad == [] then 0 else 2) <= 7
  {
    var a := Address(hs, true, ts, quad);
    if hs == [] {
      CountLeadingElision(a);
    } else {
      CountInnerElision(a);
    }
  }
}

/**
 * The IPv6 text-form validator `ValidateIPaddress.isIPv6`, as pinned down by the
 * table of addresses in ValidateIPAddressTest.
 *
 * `IsIPv6` is a left-to-right scanner over the characters of the address.  Its
 * reference definition is the grammar of the text forms in section 2.2 of
 * RFC 4291: an `Address` is a list of 16-bit pieces written as hex groups,
 * optionally elided once by "::", optionally ending in a dotted-quad IPv4 address
 * that stands for the last two pieces.  `Characterization` proves that the
 * scanner accepts exactly the renderings of well-formed addresses.
 */
module IPv6 {

  // ---------------------------------------------------------------------------
  // Characters

  predicate IsHexDigit(c: char) {
    '0' <= c <= '9' || 'a' <= c <= 'f' || 'A' <= c <= 'F'
  }

  predicate IsDecDigit(c: char) {
    '0' <= c <= '9'
  }

  function DigitValue(c: char): (d: nat)
    requires IsDecDigit(c)
    ensures d <= 9
  {
    (c - '0') as nat
  }

  lemma SplitDrop(s: string, i: nat, j: nat)
    requires i <= j <= |s|
    ensures s[i..] == s[i..j] + s[j..]
  {
  }

  // ---------------------------------------------------------------------------
  // The scanner

  /** A complete address has eight pieces, or at most seven when "::" stands for the rest. */
  predicate Final(pieces: nat, elided: bool) {
    if elided then pieces <= 7 else pieces == 8
  }

  /**
   * Octet number `k` (0..3) of a dotted quad: `len` digits of it, of value `v`,
   * have been read, and `i` is the next position.
   */
  predicate Octet(s: string, i: nat, k: nat, len: nat, v: nat)
    requires i <= |s| && k <= 3
    decreases |s| - i
  {
    if i < |s| && IsDecDigit(s[i]) then
      len < 3 && !(len == 1 && v == 0) && v * 10 + DigitValue(s[i]) <= 255 &&
      Octet(s, i + 1, k, len + 1, v * 10 + DigitValue(s[i]))
    else if len == 0 then false
    else if k == 3 then i == |s|
    else i < |s| && s[i] == '.' && Octet(s, i + 1, k + 1, 0, 0)
  }

  /**
   * Inside a group: `len` hex digits of it have been read, `pieces` pieces come
   * before it, and `elided` says whether "::" has been seen.  A '.' turns the
   * group into the first octet of a dotted quad, which must end the address.
   */
  predicate Run(s: string, i: nat, pieces: nat, elided: bool, len: nat)
    requires len <= i <= |s|
    decreases |s| - i, 1
  {
    if i < |s| && IsHexDigit(s[i]) then len < 4 && Run(s, i + 1, pieces, elided, len + 1)
    else if i < |s| && s[i] == '.' then Final(pieces + 2, elided) && Octet(s, i - len, 0, 0, 0)
    else 0 < len && Sep(s, i, pieces + 1, elided)
  }

  /** After a group: the end of the address, ":" and the next group, or "::". */
  predicate Sep(s: string, j: nat, pieces: nat, elided: bool)
    requires j <= |s|
    decreases |s| - j, 0
  {
    if j == |s| then Final(pieces, elided)
    else if s[j] != ':' then false
    else if j + 1 < |s| && s[j + 1] == ':' then
      !elided && (if j + 2 == |s| then Final(pieces, true) else Run(s, j + 2, pieces, true, 0))
    else j + 1 < |s| && Run(s, j + 1, pieces, elided, 0)
  }

  /** ValidateIPaddress.isIPv6 */
  predicate IsIPv6(s: string) {
    if 2 <= |s| && s[0] == ':' && s[1] == ':' then |s| == 2 || Run(s, 2, 0, true, 0)
    else Run(s, 0, 0, false, 0)
  }

  // ---------------------------------------------------------------------------
  // The text forms of RFC 4291 section 2.2

  /** A hex group: one to four hex digits, either case. */
  predicate IsGroup(g: string) {
    1 <= |g| <= 4 && forall i :: 0 <= i < |g| ==> IsHexDigit(g[i])
  }

  predicate AllDecDigits(o: string) {
    forall i :: 0 <= i < |o| ==> IsDecDigit(o[i])
  }

  function DecValue(o: string): nat
    requires AllDecDigits(o)
  {
    if o == [] then 0 else DecValue(o[..|o| - 1]) * 10 + DigitValue(o[|o| - 1])
  }

  /** A decimal octet: 0..255 written without leading zeros. */
  predicate IsDecOctet(o: string) {
    1 <= |o| <= 3 && AllDecDigits(o) && (|o| == 1 || o[0] != '0') && DecValue(o) <= 255
  }

  /** Groups separated by single colons. */
  function Join(gs: seq<string>): string {
    if gs == [] then "" else if |gs| == 1 then gs[0] else gs[0] + ":" + Join(gs[1..])
  }

  function DottedQuad(q: seq<string>): string
    requires |q| == 4
  {
    q[0] + "." + q[1] + "." + q[2] + "." + q[3]
  }

  /** Groups, then (when `quad` is not empty) an embedded IPv4 address. */
  function GroupsThenQuad(gs: seq<string>, quad: seq<string>): string
    requires quad == [] || |quad| == 4
  {
    if quad == [] then Join(gs)
    else if gs == [] then DottedQuad(quad)
    else Join(gs) + ":" + DottedQuad(quad)
  }

  /**
   * An address in text form: `head`, then "::" and `tail` when `elided`, then
   * the dotted quad when `quad` is not empty.
   */
  datatype Address = Address(head: seq<string>, elided: bool, tail: seq<string>, quad: seq<string>)

  /** The number of 16-bit pieces written out. */
  function PieceCount(a: Address): nat {
    |a.head| + |a.tail| + (if a.quad == [] then 0 else 2)
  }

  /** Every group is a hex group and the quad, if any, is four decimal octets. */
  predicate PartsValid(a: Address) {
    (forall i :: 0 <= i < |a.head| ==> IsGroup(a.head[i])) &&
    (forall i :: 0 <= i < |a.tail| ==> IsGroup(a.tail[i])) &&
    (a.quad == [] || (|a.quad| == 4 && forall i :: 0 <= i < 4 ==> IsDecOctet(a.quad[i])))
  }

  /** Eight pieces in all, or at most seven when "::" stands for at least one zero piece. */
  predicate WellFormed(a: Address) {
    PartsValid(a) && (if a.elided then PieceCount(a) <= 7 else a.tail == [] && PieceCount(a) == 8)
  }

  function Render(a: Address): string
    requires a.quad == [] || |a.quad| == 4
  {
    if a.elided then Join(a.head) + "::" + GroupsThenQuad(a.tail, a.quad)
    else GroupsThenQuad(a.head, a.quad)
  }

  /** Octets separated by dots. */
  function Dots(os: seq<string>): string
    requires os != []
  {
    if |os| == 1 then os[0] else os[0] + "." + Dots(os[1..])
  }

  // ---------------------------------------------------------------------------
  // Decimal octets

  lemma {:induction false} DecValuePrefix(o: string, m: nat)
    requires AllDecDigits(o) && m <= |o|
    ensures AllDecDigits(o[..m]) && DecValue(o[..m]) <= DecValue(o)
    decreases |o| - m
  {
    assert AllDecDigits(o[..m]);
    if m < |o| {
      var o' := o[..|o| - 1];
      assert AllDecDigits(o');
      DecValuePrefix(o', m);
      assert o'[..m] == o[..m];
    } else {
      assert o[..m] == o;
    }
  }

  /** The value of the first `len + 1` digits of `o`. */
  lemma PrefixStep(o: string, len: nat)
    requires AllDecDigits(o) && len < |o|
    ensures AllDecDigits(o[..len]) && AllDecDigits(o[..len + 1])
    ensures DecValue(o[..len + 1]) == DecValue(o[..len]) * 10 + DigitValue(o[len])
    ensures DecValue(o[..len + 1]) <= DecValue(o)
    ensures len == 1 ==> DecValue(o[..1]) == DigitValue(o[0])
  {
    assert o[..len + 1][..len] == o[..len];
    DecValuePrefix(o, len + 1);
    if len == 1 {
      assert o[..1] == [o[0]];
      assert o[..1][..0] == [];
    }
  }

  /** A digit that keeps the octet within three digits, no leading zero and 255. */
  lemma OctetDigitStep(s: string, i: nat, k: nat, len: nat, v: nat)
    requires i < |s| && k <= 3 && IsDecDigit(s[i])
    requires len < 3 && !(len == 1 && v == 0) && v * 10 + DigitValue(s[i]) <= 255
    ensures Octet(s, i, k, len, v) == Octet(s, i + 1, k, len + 1, v * 10 + DigitValue(s[i]))
  {
  }

  /** The digits of one decimal octet `o` are read one at a time. */
  lemma {:induction false} OctetDigits(s: string, i0: nat, k: nat, o: string, len: nat)
    requires k <= 3 && i0 + |o| <= |s| && s[i0..i0 + |o|] == o && IsDecOctet(o)
    requires i0 + |o| == |s| || !IsDecDigit(s[i0 + |o|])
    requires len <= |o|
    ensures AllDecDigits(o[..len])
    ensures Octet(s, i0 + len, k, len, DecValue(o[..len])) == Octet(s, i0 + |o|, k, |o|, DecValue(o))
    decreases |o| - len
  {
    assert AllDecDigits(o[..len]);
    if len < |o| {
      assert s[i0 + len] == o[len];
      PrefixStep(o, len);
      OctetDigitStep(s, i0 + len, k, len, DecValue(o[..len]));
      OctetDigits(s, i0, k, o, len + 1);
    } else {
      assert o[..len] == o;
    }
  }

  /** The dotted rendering of decimal octets is accepted, octet `k` onwards. */
  lemma {:induction false} OctetComplete(s: string, i0: nat, k: nat, os: seq<string>)
    requires k <= 3 && |os| == 4 - k && i0 <= |s| && s[i0..] == Dots(os)
    requires forall j :: 0 <= j < |os| ==> IsDecOctet(os[j])
    ensures Octet(s, i0, k, 0, 0)
    decreases |s| - i0
  {
    var o := os[0];
    assert IsDecOctet(o);
    var rest := if |os| == 1 then "" else "." + Dots(os[1..]);
    assert Dots(os) == o + rest;
    assert s[i0..i0 + |o|] == o && s[i0 + |o|..] == rest by {
      assert s[i0..][..|o|] == o && s[i0..][|o|..] == rest;
    }
    var i := i0 + |o|;
    if |os| > 1 {
      assert s[i] == '.';
      assert s[i + 1..] == Dots(os[1..]);
      OctetComplete(s, i + 1, k + 1, os[1..]);
    }
    OctetDigits(s, i0, k, o, 0);
    assert o[..0] == [];
  }

  /** One more digit of an octet: the value read so far grows by it. */
  lemma OctetNextDigit(s: string, i0: nat, len: nat, v: nat)
    requires i0 + len < |s| && IsDecDigit(s[i0 + len])
    requires AllDecDigits(s[i0..i0 + len]) && v == DecValue(s[i0..i0 + len])
    ensures AllDecDigits(s[i0..i0 + len + 1])
    ensures DecValue(s[i0..i0 + len + 1]) == v * 10 + DigitValue(s[i0 + len])
    ensures len == 1 ==> v == DigitValue(s[i0])
  {
    var o' := s[i0..i0 + len + 1];
    assert o'[..|o'| - 1] == s[i0..i0 + len];
    assert AllDecDigits(o');
    if len == 1 {
      assert s[i0..i0 + 1] == [s[i0]];
      assert s[i0..i0 + 1][..0] == [];
    }
  }

  /** An accepted octet sequence is the dotted rendering of decimal octets. */
  lemma {:induction false} OctetSound(s: string, i0: nat, k: nat, len: nat, v: nat) returns (os: seq<string>)
    requires k <= 3 && i0 + len <= |s| && len <= 3
    requires AllDecDigits(s[i0..i0 + len]) && v == DecValue(s[i0..i0 + len]) && v <= 255
    requires len >= 2 ==> s[i0] != '0'
    requires Octet(s, i0 + len, k, len, v)
    ensures |os| == 4 - k && s[i0..] == Dots(os)
    ensures forall j :: 0 <= j < |os| ==> IsDecOctet(os[j])
    decreases |s| - (i0 + len), 1
  {
    var i := i0 + len;
    if i < |s| && IsDecDigit(s[i]) {
      OctetNextDigit(s, i0, len, v);
      os := OctetSound(s, i0, k, len + 1, v * 10 + DigitValue(s[i]));
    } else {
      os := OctetEnd(s, i0, k, len);
    }
  }

  /** The octet `s[i0..i0 + len]` has ended: the address ends or a '.' and the next octet follow. */
  lemma {:induction false} OctetEnd(s: string, i0: nat, k: nat, len: nat) returns (os: seq<string>)
    requires k <= 3 && i0 + len <= |s| && len <= 3
    requires AllDecDigits(s[i0..i0 + len]) && DecValue(s[i0..i0 + len]) <= 255
    requires len >= 2 ==> s[i0] != '0'
    requires i0 + len == |s| || !IsDecDigit(s[i0 + len])
    requires Octet(s, i0 + len, k, len, DecValue(s[i0..i0 + len]))
    ensures |os| == 4 - k && s[i0..] == Dots(os)
    ensures forall j :: 0 <= j < |os| ==> IsDecOctet(os[j])
    decreases |s| - (i0 + len), 0
  {
    var i := i0 + len;
    var o := s[i0..i];
    assert IsDecOctet(o);
    if k == 3 {
      os := [o];
    } else {
      var os' := OctetSound(s, i + 1, k + 1, 0, 0);
      os := [o] + os';
      assert os[1..] == os';
      assert s[i0..] == o + "." + s[i + 1..] by {
        SplitDrop(s, i0, i);
        assert s[i..] == "." + s[i + 1..];
      }
    }
  }

  // ---------------------------------------------------------------------------
  // Groups and the embedded dotted quad

  lemma DottedQuadIsDots(q: seq<string>)
    requires |q| == 4
    ensures DottedQuad(q) == Dots(q)
  {
    assert q[1..][1..] == q[2..] && q[2..][1..] == q[3..];
    assert Dots(q[3..]) == q[3];
    assert Dots(q[2..]) == q[2] + "." + q[3];
    assert Dots(q[1..]) == q[1] + "." + (q[2] + "." + q[3]);
  }

  /** The hex digits of one group `g` are read one at a time up to the colon or the end. */
  lemma {:induction false} GroupComplete(s: string, p: nat, g: string, n: nat, e: bool, m: nat)
    requires p + |g| <= |s| && s[p..p + |g|] == g && IsGroup(g) && m <= |g|
    requires p + |g| == |s| || s[p + |g|] == ':'
    ensures Run(s, p + m, n, e, m) == Sep(s, p + |g|, n + 1, e)
    decreases |g| - m
  {
    if m < |g| {
      assert s[p + m] == g[m];
      GroupComplete(s, p, g, n, e, m + 1);
    }
  }

  /** A dotted quad ending the address stands for two pieces. */
  lemma {:induction false} QuadComplete(s: string, p: nat, n: nat, e: bool, q: seq<string>, m: nat)
    requires |q| == 4 && forall j :: 0 <= j < 4 ==> IsDecOctet(q[j])
    requires p <= |s| && s[p..] == DottedQuad(q) && m <= |q[0]|
    ensures p + m <= |s| && Run(s, p + m, n, e, m) == Final(n + 2, e)
    decreases |q[0]| - m
  {
    DottedQuadIsDots(q);
    assert IsDecOctet(q[0]);
    assert s[p..][..|q[0]|] == q[0] && s[p..][|q[0]|] == '.';
    if m < |q[0]| {
      assert s[p + m] == q[0][m];
      QuadComplete(s, p, n, e, q, m + 1);
    } else {
      OctetComplete(s, p, 0, q);
    }
  }

  lemma QuadRun(s: string, p: nat, n: nat, e: bool, q: seq<string>)
    requires |q| == 4 && forall j :: 0 <= j < 4 ==> IsDecOctet(q[j])
    requires p <= |s| && s[p..] == DottedQuad(q)
    ensures Run(s, p, n, e, 0) == Final(n + 2, e)
  {
    QuadComplete(s, p, n, e, q, 0);
  }

  // ---------------------------------------------------------------------------
  // The scanner against the grammar

  /**
   * `a` can follow `pieces` pieces already read, "::" having been seen when
   * `elided`: the scanner's state at the start of a group.
   */
  predicate FitsAfter(a: Address, pieces: nat, elided: bool) {
    PartsValid(a) &&
    if elided then !a.elided && a.tail == [] && pieces + PieceCount(a) <= 7
    else if a.elided then pieces + PieceCount(a) <= 7
    else a.tail == [] && pieces + PieceCount(a) == 8
  }

  /** The rendering of `a` starts with a group or with the dotted quad, not with "::". */
  predicate StartsWithPiece(a: Address) {
    a.head != [] || (!a.elided && a.quad != [])
  }

  lemma {:induction false} JoinCons(g: string, h: seq<string>)
    requires h != []
    ensures Join([g] + h) == g + ":" + Join(h)
  {
    assert ([g] + h)[1..] == h;
  }

  lemma FirstOfJoin(gs: seq<string>)
    requires gs != [] && gs[0] != []
    ensures Join(gs) != [] && Join(gs)[0] == gs[0][0]
  {
  }

  /** A rendering that starts with a piece starts with a hex digit. */
  lemma RenderStartsWithHex(a: Address)
    requires PartsValid(a) && StartsWithPiece(a)
    ensures Render(a) != [] && IsHexDigit(Render(a)[0])
  {
    if a.head != [] {
      assert IsGroup(a.head[0]);
      FirstOfJoin(a.head);
    } else {
      assert IsDecOctet(a.quad[0]);
    }
  }

  /** Splitting off the first group of `a`, when more pieces follow it with a single colon. */
  lemma {:induction false} RenderCons(a: Address)
    requires PartsValid(a) && a.head != []
    requires |a.head| > 1 || (!a.elided && a.quad != [])
    ensures var b := Address(a.head[1..], a.elided, a.tail, a.quad);
      Render(a) == a.head[0] + ":" + Render(b)
  {
    var g, h := a.head[0], a.head[1..];
    assert a.head == [g] + h;
    if h != [] {
      JoinCons(g, h);
    }
  }

  lemma SplitAt(s: string, p: nat, x: string, c: char, y: string)
    requires p <= |s| && s[p..] == x + [c] + y
    ensures p + |x| < |s| && s[p..p + |x|] == x && s[p + |x|] == c && s[p + |x| + 1..] == y
  {
    assert s[p..][..|x|] == x && s[p..][|x|] == c && s[p..][|x| + 1..] == y;
  }

  lemma SepColon(s: string, j: nat, n: nat, e: bool)
    requires j + 1 < |s| && s[j] == ':' && s[j + 1] != ':'
    ensures Sep(s, j, n, e) == Run(s, j + 1, n, e, 0)
  {
  }

  lemma SepDoubleColon(s: string, j: nat, n: nat, e: bool)
    requires j + 2 < |s| && s[j] == ':' && s[j + 1] == ':'
    ensures Sep(s, j, n, e) == (!e && Run(s, j + 2, n, true, 0))
  {
  }

  /** A group followed by a single colon and then a group or a dotted quad. */
  lemma GroupThenColon(s: string, p: nat, g: string, r: string, n: nat, e: bool)
    requires p <= |s| && s[p..] == g + [':'] + r && IsGroup(g) && r != [] && IsHexDigit(r[0])
    ensures p + |g| + 1 < |s| && s[p + |g| + 1..] == r
    ensures Run(s, p, n, e, 0) == Run(s, p + |g| + 1, n + 1, e, 0)
  {
    SplitAt(s, p, g, ':', r);
    var j := p + |g|;
    assert s[j + 1] == r[0] by {
      assert s[j + 1..] == r;
    }
    GroupComplete(s, p, g, n, e, 0);
    SepColon(s, j, n + 1, e);
  }

  /** The last group before the end of the address or a colon. */
  lemma LastGroupRun(s: string, p: nat, n: nat, e: bool, g: string, r: string)
    requires IsGroup(g) && p <= |s| && s[p..] == g + r && (r == [] || r[0] == ':')
    ensures p + |g| <= |s| && s[p + |g|..] == r
    ensures Run(s, p, n, e, 0) == Sep(s, p + |g|, n + 1, e)
  {
    assert s[p..][..|g|] == g && s[p..][|g|..] == r;
    if r != [] {
      assert s[p + |g|] == r[0];
    }
    GroupComplete(s, p, g, n, e, 0);
  }

  /** The first of several groups separated by single colons. */
  lemma {:induction false} HeadStep(s: string, p: nat, n: nat, e: bool, gs: seq<string>, r: string)
    requires |gs| > 1 && forall i :: 0 <= i < |gs| ==> IsGroup(gs[i])
    requires p <= |s| && s[p..] == Join(gs) + r
    ensures |Join(gs)| == |gs[0]| + 1 + |Join(gs[1..])|
    ensures p + |gs[0]| + 1 <= |s| && s[p + |gs[0]| + 1..] == Join(gs[1..]) + r
    ensures Run(s, p, n, e, 0) == Run(s, p + |gs[0]| + 1, n + 1, e, 0)
  {
    var g, h := gs[0], gs[1..];
    JoinCons(g, h);
    assert gs == [g] + h;
    assert IsGroup(g) && IsGroup(h[0]);
    FirstOfJoin(h);
    GroupThenColon(s, p, g, Join(h) + r, n, e);
  }

  /** Groups separated by single colons are read one after the other; `m` counts the pieces read by then. */
  lemma {:induction false} HeadRun(s: string, p: nat, n: nat, e: bool, gs: seq<string>, r: string, m: nat)
    requires gs != [] && forall i :: 0 <= i < |gs| ==> IsGroup(gs[i])
    requires p <= |s| && s[p..] == Join(gs) + r && (r == [] || r[0] == ':')
    requires m == n + |gs|
    ensures |r| <= |s| && s[|s| - |r|..] == r
    ensures Run(s, p, n, e, 0) == Sep(s, |s| - |r|, m, e)
    decreases |gs|
  {
    if |gs| == 1 {
      HeadRunLast(s, p, n, e, gs, r, m);
    } else {
      HeadStep(s, p, n, e, gs, r);
      assert forall i :: 0 <= i < |gs[1..]| ==> IsGroup(gs[1..][i]) by {
        forall i | 0 <= i < |gs[1..]|
          ensures IsGroup(gs[1..][i])
        {
          assert gs[1..][i] == gs[i + 1];
        }
      }
      HeadRun(s, p + |gs[0]| + 1, n + 1, e, gs[1..], r, m);
    }
  }

  lemma HeadRunLast(s: string, p: nat, n: nat, e: bool, gs: seq<string>, r: string, m: nat)
    requires |gs| == 1 && IsGroup(gs[0])
    requires p <= |s| && s[p..] == Join(gs) + r && (r == [] || r[0] == ':')
    requires m == n + 1
    ensures |r| <= |s| && s[|s| - |r|..] == r
    ensures Run(s, p, n, e, 0) == Sep(s, |s| - |r|, m, e)
  {
    assert Join(gs) == gs[0];
    LastGroupRun(s, p, n, e, gs[0], r);
  }

  /** Groups and an optional dotted quad ending the address: the pieces are counted. */
  lemma GroupsThenQuadRun(s: string, p: nat, n: nat, e: bool, gs: seq<string>, quad: seq<string>)
    requires forall i :: 0 <= i < |gs| ==> IsGroup(gs[i])
    requires quad == [] || (|quad| == 4 && forall i :: 0 <= i < 4 ==> IsDecOctet(quad[i]))
    requires gs != [] || quad != []
    requires p <= |s| && s[p..] == GroupsThenQuad(gs, quad)
    ensures Run(s, p, n, e, 0) == Final(n + |gs| + (if quad == [] then 0 else 2), e)
  {
    if gs == [] {
      QuadRun(s, p, n, e, quad);
    } else if quad == [] {
      HeadRun(s, p, n, e, gs, "", n + |gs|);
    } else {
      GroupsAndQuadRun(s, p, n, e, gs, quad);
    }
  }

  lemma GroupsAndQuadRun(s: string, p: nat, n: nat, e: bool, gs: seq<string>, quad: seq<string>)
    requires gs != [] && forall i :: 0 <= i < |gs| ==> IsGroup(gs[i])
    requires |quad| == 4 && forall i :: 0 <= i < 4 ==> IsDecOctet(quad[i])
    requires p <= |s| && s[p..] == Join(gs) + ([':'] + DottedQuad(quad))
    ensures Run(s, p, n, e, 0) == Final(n + |gs| + 2, e)
  {
    var r := [':'] + DottedQuad(quad);
    var k := n + |gs|;
    HeadRun(s, p, n, e, gs, r, k);
    ColonQuadRun(s, |s| - |r|, k, e, quad);
  }

  lemma ColonQuadRun(s: string, j: nat, n: nat, e: bool, quad: seq<string>)
    requires |quad| == 4 && forall i :: 0 <= i < 4 ==> IsDecOctet(quad[i])
    requires j <= |s| && s[j..] == [':'] + DottedQuad(quad)
    ensures Sep(s, j, n, e) == Final(n + 2, e)
  {
    assert IsDecOctet(quad[0]);
    assert s[j + 1..] == DottedQuad(quad);
    assert s[j + 1] == quad[0][0];
    SepColon(s, j, n, e);
    QuadRun(s, j + 1, n, e, quad);
  }

  /** Without "::", the scanner reads every piece and wants eight of them. */
  lemma CountWithoutElision(a: Address)
    requires PartsValid(a) && !a.elided && a.tail == [] && StartsWithPiece(a)
    ensures IsIPv6(Render(a)) <==> PieceCount(a) == 8
  {
    var s := Render(a);
    RenderStartsWithHex(a);
    assert s[0..] == s;
    GroupsThenQuadRun(s, 0, 0, false, a.head, a.quad);
  }

  /** An address starting with "::" is accepted when at most seven pieces follow. */
  lemma CountLeadingElision(a: Address)
    requires PartsValid(a) && a.elided && a.head == []
    ensures IsIPv6(Render(a)) <==> PieceCount(a) <= 7
  {
    var s := Render(a);
    var rest := GroupsThenQuad(a.tail, a.quad);
    assert s == "::" + rest;
    if rest != [] {
      assert a.tail != [] || a.quad != [];
      assert s[2..] == rest;
      GroupsThenQuadRun(s, 2, 0, true, a.tail, a.quad);
    }
  }

  /** "::" and then the groups and quad that end the address. */
  lemma ElisionThenRest(s: string, j: nat, n: nat, ts: seq<string>, quad: seq<string>)
    requires forall i :: 0 <= i < |ts| ==> IsGroup(ts[i])
    requires quad == [] || (|quad| == 4 && forall i :: 0 <= i < 4 ==> IsDecOctet(quad[i]))
    requires j <= |s| && s[j..] == "::" + GroupsThenQuad(ts, quad)
    ensures Sep(s, j, n, false) == Final(n + |ts| + (if quad == [] then 0 else 2), true)
  {
    var rest := GroupsThenQuad(ts, quad);
    assert s[j..][0] == ':' && s[j..][1] == ':' && s[j..][2..] == rest;
    if rest != [] {
      assert ts != [] || quad != [];
      SepDoubleColon(s, j, n, false);
      GroupsThenQuadRun(s, j + 2, n, true, ts, quad);
    }
  }

  /** Groups, "::", then more pieces: at most seven in all. */
  lemma CountInnerElision(a: Address)
    requires PartsValid(a) && a.elided && a.head != []
    ensures IsIPv6(Render(a)) <==> PieceCount(a) <= 7
  {
    var s := Render(a);
    var r := "::" + GroupsThenQuad(a.tail, a.quad);
    assert s == Join(a.head) + r;
    assert IsGroup(a.head[0]);
    FirstOfJoin(a.head);
    assert s[0..] == s;
    HeadRun(s, 0, 0, false, a.head, r, |a.head|);
    ElisionThenRest(s, |s| - |r|, |a.head|, a.tail, a.quad);
  }

  /** Every well-formed address is accepted in its text form. */
  lemma RenderAccepted(a: Address)
    requires WellFormed(a)
    ensures IsIPv6(Render(a))
  {
    if !a.elided {
      CountWithoutElision(a);
    } else if a.head == [] {
      CountLeadingElision(a);
    } else {
      CountInnerElision(a);
    }
  }

  // ---------------------------------------------------------------------------
  // Soundness: whatever the scanner accepts is the text form of an address

  /** A group and a single colon in front of the rest of an address. */
  lemma ConsGroup(g: string, b: Address, n: nat, e: bool) returns (a: Address)
    requires IsGroup(g) && FitsAfter(b, n + 1, e) && StartsWithPiece(b)
    ensures FitsAfter(a, n, e) && a.head != [] && Render(a) == g + ":" + Render(b)
  {
    a := Address([g] + b.head, b.elided, b.tail, b.quad);
    assert a.head[1..] == b.head;
    RenderCons(a);
  }

  /** A group and "::" in front of the rest of an address. */
  lemma ElideAfterGroup(g: string, b: Address, n: nat) returns (a: Address)
    requires IsGroup(g) && FitsAfter(b, n + 1, true)
    ensures FitsAfter(a, n, false) && a.head != [] && Render(a) == g + "::" + Render(b)
  {
    a := Address([g], true, b.head, b.quad);
  }

  /** `s` from `j` on, when `x` is written at `j`. */
  lemma DropPrefix(s: string, j: nat, x: string)
    requires j + |x| <= |s| && s[j..j + |x|] == x
    ensures forall g: string :: g + s[j..] == g + x + s[j + |x|..]
  {
    assert s[j..] == x + s[j + |x|..];
  }

  /** The scanner inside a group that started at `i - len`. */
  lemma {:induction false} RunSound(s: string, i: nat, n: nat, e: bool, len: nat) returns (a: Address)
    requires len <= i <= |s| && len <= 4 && Run(s, i, n, e, len)
    requires forall k :: i - len <= k < i ==> IsHexDigit(s[k])
    ensures FitsAfter(a, n, e) && StartsWithPiece(a) && Render(a) == s[i - len..]
    decreases |s| - i, 2
  {
    if i < |s| && IsHexDigit(s[i]) {
      a := RunSound(s, i + 1, n, e, len + 1);
    } else if i < |s| && s[i] == '.' {
      var os := OctetSound(s, i - len, 0, 0, 0);
      a := Address([], false, [], os);
      DottedQuadIsDots(os);
    } else {
      var g := s[i - len..i];
      assert IsGroup(g);
      a := SepSound(s, i, n, e, g);
      SplitDrop(s, i - len, i);
    }
  }

  /** The scanner after the group `g`, which is piece number `n + 1`. */
  lemma {:induction false} SepSound(s: string, j: nat, n: nat, e: bool, g: string) returns (a: Address)
    requires j <= |s| && IsGroup(g) && Sep(s, j, n + 1, e)
    ensures FitsAfter(a, n, e) && a.head != [] && Render(a) == g + s[j..]
    decreases |s| - j, 1
  {
    if j == |s| {
      a := Address([g], false, [], []);
    } else if j + 1 < |s| && s[j + 1] == ':' {
      a := ElisionSound(s, j, n, g);
    } else {
      a := ColonSound(s, j, n, e, g);
    }
  }

  /** "::" after the group `g`. */
  lemma {:induction false} ElisionSound(s: string, j: nat, n: nat, g: string) returns (a: Address)
    requires j + 1 < |s| && s[j] == ':' && s[j + 1] == ':'
    requires IsGroup(g) && Sep(s, j, n + 1, false)
    ensures FitsAfter(a, n, false) && a.head != [] && Render(a) == g + s[j..]
    decreases |s| - j, 0
  {
    DropPrefix(s, j, "::");
    if j + 2 == |s| {
      a := Address([g], true, [], []);
    } else {
      var b := RunSound(s, j + 2, n + 1, true, 0);
      a := ElideAfterGroup(g, b, n);
    }
  }

  /** A single colon after the group `g`. */
  lemma {:induction false} ColonSound(s: string, j: nat, n: nat, e: bool, g: string) returns (a: Address)
    requires j + 1 < |s| && s[j] == ':' && s[j + 1] != ':'
    requires IsGroup(g) && Sep(s, j, n + 1, e)
    ensures FitsAfter(a, n, e) && a.head != [] && Render(a) == g + s[j..]
    decreases |s| - j, 0
  {
    DropPrefix(s, j, ":");
    var b := RunSound(s, j + 1, n + 1, e, 0);
    a := ConsGroup(g, b, n, e);
  }

  /** Every accepted string is the text form of a well-formed address. */
  lemma AcceptedIsRendering(s: string) returns (a: Address)
    requires IsIPv6(s)
    ensures WellFormed(a) && Render(a) == s
  {
    if 2 <= |s| && s[0] == ':' && s[1] == ':' {
      DropPrefix(s, 0, "::");
      if |s| == 2 {
        a := Address([], true, [], []);
      } else {
        var b := RunSound(s, 2, 0, true, 0);
        a := Address([], true, b.head, b.quad);
      }
    } else {
      a := RunSound(s, 0, 0, false, 0);
    }
  }

  /**
   * The scanner accepts exactly the text forms of RFC 4291 section 2.2: eight
   * pieces, or fewer around a single "::", the last two optionally written as
   * a dotted quad.
   */
  lemma Characterization(s: string)
    ensures IsIPv6(s) <==> exists a :: WellFormed(a) && Render(a) == s
  {
    if IsIPv6(s) {
      var a := AcceptedIsRendering(s);
    }
    if a :| WellFormed(a) && Render(a) == s {
      RenderAccepted(a);
    }
  }
}

/**
 * HTTP Digest authentication as the XACML front end performs it (RFC 2617):
 * the `WWW-Authenticate` challenge it issues, the parse of the client's
 * `Authorization` header into a key/value map, and the comparison of the
 * client's `response` with the request-digest the server computes.
 *
 * `DigestUtils.md5Hex` is not modelled: every operation takes it as a
 * parameter `md5` that maps a string to 32 lower-case hex digits.
 */
module Digest {
  import opened JavaText

  predicate IsLowerHex(c: char) {
    '0' <= c <= '9' || 'a' <= c <= 'f'
  }

  /** What `DigestUtils.md5Hex` returns: 32 lower-case hex digits. */
  type Md5Hex = s: string | |s| == 32 && forall k :: 0 <= k < |s| ==> IsLowerHex(s[k])
    witness "00000000000000000000000000000000"

  // ---------------------------------------------------------------------------
  // Parsing the Authorization header

  /** The header without its scheme: the text after the first space, trimmed. */
  function WithoutScheme(header: string): (r: string)
    ensures Trimmed(r)
  {
    Trim(header[IndexOf(header, ' ') + 1..])
  }

  /**
   * The map entry one comma-separated segment contributes: none without an
   * `=`; otherwise the trimmed text before the first `=` as key, and the text
   * after it with every double quote removed and trimmed as value.
   */
  function SegmentEntry(seg: string): (r: Option<(string, string)>)
    ensures r.None? <==> '=' !in seg
    ensures r.Some? ==> Trimmed(r.value.0) && Trimmed(r.value.1) && '"' !in r.value.1
    ensures r.Some? ==> '=' !in r.value.0
  {
    var k := IndexOf(seg, '=');
    if k < 0 then None else Some((Trim(seg[..k]), Trim(Remove(seg[k + 1..], '"'))))
  }

  /** An entry per segment, in order. */
  function Entries(segs: seq<string>): (r: seq<Option<(string, string)>>)
    ensures |r| == |segs| && forall i :: 0 <= i < |segs| ==> r[i] == SegmentEntry(segs[i])
  {
    seq(|segs|, i requires 0 <= i < |segs| => SegmentEntry(segs[i]))
  }

  function Put(m: map<string, string>, e: Option<(string, string)>): map<string, string> {
    if e.Some? then m[e.value.0 := e.value.1] else m
  }

  /** The map the entries fill, first to last, a later key overwriting an earlier one. */
  function Collect(es: seq<Option<(string, string)>>): map<string, string> {
    if es == [] then map[] else Put(Collect(es[..|es| - 1]), es[|es| - 1])
  }

  /** The key/value map `preAuthenticateUsingDigest` builds from the header. */
  function HeaderValues(header: string): (r: map<string, string>)
    ensures forall key :: key in r ==> Trimmed(key) && '=' !in key && Trimmed(r[key]) && '"' !in r[key]
  {
    var es := Entries(Split(WithoutScheme(header), ','));
    CollectClean(es);
    Collect(es)
  }

  /** The header parse, segment by segment into a map. */
  method ParseHeaderValues(header: string) returns (values: map<string, string>)
    ensures values == HeaderValues(header)
  {
    var rest := WithoutScheme(header);
    var segs := Split(rest, ',');
    ghost var es := Entries(segs);
    values := map[];
    var i := 0;
    while i < |segs|
      invariant 0 <= i <= |segs|
      invariant values == Collect(es[..i])
    {
      CollectStep(es, i);
      values := PutSegment(values, segs[i]);
      i := i + 1;
    }
    assert es[..i] == es;
  }

  /** The body of the parse loop: a segment holding `=` stores its trimmed key and unquoted, trimmed value. */
  method PutSegment(values: map<string, string>, seg: string) returns (r: map<string, string>)
    ensures r == Put(values, SegmentEntry(seg))
  {
    r := values;
    if '=' in seg {
      var k := IndexOf(seg, '=');
      var key, value := Trim(seg[..k]), Trim(Remove(seg[k + 1..], '"'));
      SegmentEntryAt(seg, k);
      assert SegmentEntry(seg) == Some((key, value));
      r := r[key := value];
    } else {
      assert SegmentEntry(seg) == None;
    }
  }

  /** The entry of a segment whose first `=` is at `k`. */
  lemma SegmentEntryAt(seg: string, k: int)
    requires 0 <= k < |seg| && k == IndexOf(seg, '=')
    ensures SegmentEntry(seg) == Some((Trim(seg[..k]), Trim(Remove(seg[k + 1..], '"'))))
  {
  }

  lemma CollectStep(es: seq<Option<(string, string)>>, i: int)
    requires 0 <= i < |es|
    ensures Collect(es[..i + 1]) == Put(Collect(es[..i]), es[i])
  {
    assert es[..i + 1][..i] == es[..i];
  }

  predicate CleanEntry(e: Option<(string, string)>) {
    e.Some? ==> Trimmed(e.value.0) && '=' !in e.value.0 && Trimmed(e.value.1) && '"' !in e.value.1
  }

  /** Keys and values stored from clean entries are clean. */
  lemma {:induction false} CollectClean(es: seq<Option<(string, string)>>)
    requires forall i :: 0 <= i < |es| ==> CleanEntry(es[i])
    ensures forall key :: key in Collect(es) ==>
      Trimmed(key) && '=' !in key && Trimmed(Collect(es)[key]) && '"' !in Collect(es)[key]
    decreases |es|
  {
    if es != [] {
      CollectClean(es[..|es| - 1]);
    }
  }

  /** The value of the last entry with a given key is the one kept. */
  lemma {:induction false} CollectLastWins(es: seq<Option<(string, string)>>, i: int, key: string, value: string)
    requires 0 <= i < |es| && es[i] == Some((key, value))
    requires forall j :: i < j < |es| ==> es[j].None? || es[j].value.0 != key
    ensures key in Collect(es) && Collect(es)[key] == value
    decreases |es|
  {
    var init := es[..|es| - 1];
    if i < |es| - 1 {
      assert forall j :: i < j < |init| ==> init[j] == es[j];
      CollectLastWins(init, i, key, value);
    }
  }

  /** A key is in the map exactly when some entry (a segment holding `=`) yields it. */
  lemma {:induction false} CollectKeys(es: seq<Option<(string, string)>>, key: string)
    ensures key in Collect(es) <==> exists i :: 0 <= i < |es| && es[i].Some? && es[i].value.0 == key
    decreases |es|
  {
    if es != [] {
      var init := es[..|es| - 1];
      CollectKeys(init, key);
      assert forall j :: 0 <= j < |init| ==> init[j] == es[j];
    }
  }

  // ---------------------------------------------------------------------------
  // Headers written by a client, and what the parse makes of them

  /** One `key=value` parameter as a client writes it, after `pad` (a space after a comma, say). */
  datatype Param = Param(pad: string, key: string, value: string, quoted: bool)

  function ParamText(p: Param): string {
    p.pad + p.key + "=" + (if p.quoted then "\"" + p.value + "\"" else p.value)
  }

  /** A value the parse returns unchanged: no comma, no quote, nothing to trim. */
  predicate CleanValue(v: string) {
    Trimmed(v) && ',' !in v && '"' !in v
  }

  predicate CleanParam(p: Param) {
    AllTrimmable(p.pad) && p.key != [] && Trimmed(p.key) && '=' !in p.key && ',' !in p.key &&
    CleanValue(p.value)
  }

  predicate CleanParams(ps: seq<Param>) {
    forall i :: 0 <= i < |ps| ==> CleanParam(ps[i])
  }

  lemma CleanSnoc(ps: seq<Param>, p: Param)
    requires CleanParams(ps) && CleanParam(p)
    ensures CleanParams(ps + [p])
  {
  }

  function ParamTexts(ps: seq<Param>): (r: seq<string>)
    ensures |r| == |ps| && forall i :: 0 <= i < |ps| ==> r[i] == ParamText(ps[i])
  {
    seq(|ps|, i requires 0 <= i < |ps| => ParamText(ps[i]))
  }

  /** `scheme`, a space, and the parameters separated by commas. */
  function FormatHeader(scheme: string, ps: seq<Param>): string
    requires ps != []
  {
    scheme + " " + JoinWith(ParamTexts(ps), ',')
  }

  /** The map the parameters denote, a later key overriding an earlier one. */
  function MapOf(ps: seq<Param>): map<string, string> {
    if ps == [] then map[] else MapOf(ps[..|ps| - 1])[ps[|ps| - 1].key := ps[|ps| - 1].value]
  }

  lemma {:induction false} MapOfLastWins(ps: seq<Param>, i: int)
    requires 0 <= i < |ps|
    requires forall j :: i < j < |ps| ==> ps[j].key != ps[i].key
    ensures ps[i].key in MapOf(ps) && MapOf(ps)[ps[i].key] == ps[i].value
    decreases |ps|
  {
    if i < |ps| - 1 {
      var init := ps[..|ps| - 1];
      assert forall j :: i < j < |init| ==> init[j] == ps[j];
      MapOfLastWins(init, i);
    }
  }

  lemma {:induction false} MapOfKeys(ps: seq<Param>, key: string)
    requires forall j :: 0 <= j < |ps| ==> ps[j].key != key
    ensures key !in MapOf(ps)
    decreases |ps|
  {
    if ps != [] {
      MapOfKeys(ps[..|ps| - 1], key);
    }
  }

  lemma RemoveQuotes(v: string, quoted: bool)
    requires '"' !in v
    ensures Remove(if quoted then "\"" + v + "\"" else v, '"') == v
  {
    RemoveAbsent(v, '"');
    if quoted {
      RemoveConcat("\"" + v, "\"", '"');
      RemoveConcat("\"", v, '"');
    }
  }

  lemma SegmentSplit(x: string, v: string)
    requires '=' !in x
    ensures SegmentEntry(x + ['='] + v) == Some((Trim(x), Trim(Remove(v, '"'))))
  {
    var t := x + ['='] + v;
    IndexOfFirst(x, '=', v);
    assert t[..|x|] == x && t[|x| + 1..] == v;
    SegmentEntryAt(t, |x|);
  }

  lemma NotInPadded(pad: string, key: string, c: char)
    requires AllTrimmable(pad) && !IsTrimmable(c) && c !in key
    ensures c !in pad + key
  {
    var x := pad + key;
    assert forall k :: 0 <= k < |pad| ==> x[k] == pad[k];
    assert forall k :: |pad| <= k < |x| ==> x[k] == key[k - |pad|];
  }

  /** A clean parameter's segment yields its key and value. */
  lemma SegmentOfParam(p: Param)
    requires CleanParam(p)
    ensures SegmentEntry(ParamText(p)) == Some((p.key, p.value))
  {
    var x := p.pad + p.key;
    var v := if p.quoted then "\"" + p.value + "\"" else p.value;
    assert ParamText(p) == x + ['='] + v;
    NotInPadded(p.pad, p.key, '=');
    SegmentSplit(x, v);
    TrimPadded(p.pad, p.key, "");
    assert p.pad + p.key + "" == x;
    RemoveQuotes(p.value, p.quoted);
    TrimPadded("", p.value, "");
    assert "" + p.value + "" == p.value;
  }

  /** The entries of all but the last parameter are the entries of the shorter list. */
  lemma {:induction false} EntriesInit(ps: seq<Param>)
    requires ps != []
    ensures Entries(ParamTexts(ps))[..|ps| - 1] == Entries(ParamTexts(ps[..|ps| - 1]))
  {
    assert ParamTexts(ps)[..|ps| - 1] == ParamTexts(ps[..|ps| - 1]);
  }

  /** A clean last parameter contributes its own key and value. */
  lemma {:induction false} EntriesLast(ps: seq<Param>)
    requires ps != [] && CleanParam(ps[|ps| - 1])
    ensures Entries(ParamTexts(ps))[|ps| - 1] == Some((ps[|ps| - 1].key, ps[|ps| - 1].value))
  {
    SegmentOfParam(ps[|ps| - 1]);
  }

  lemma {:induction false} CleanInit(ps: seq<Param>)
    requires ps != [] && CleanParams(ps)
    ensures CleanParams(ps[..|ps| - 1]) && CleanParam(ps[|ps| - 1])
  {
    var init := ps[..|ps| - 1];
    forall i | 0 <= i < |init|
      ensures CleanParam(init[i])
    {
      assert init[i] == ps[i];
    }
  }

  /** One more clean parameter: its entry extends the map as `MapOf` does. */
  lemma {:induction false} CollectParamsStep(ps: seq<Param>)
    requires ps != [] && CleanParam(ps[|ps| - 1])
    requires Collect(Entries(ParamTexts(ps[..|ps| - 1]))) == MapOf(ps[..|ps| - 1])
    ensures Collect(Entries(ParamTexts(ps))) == MapOf(ps)
  {
    EntriesInit(ps);
    EntriesLast(ps);
  }

  lemma {:induction false} CollectParams(ps: seq<Param>)
    requires CleanParams(ps)
    ensures Collect(Entries(ParamTexts(ps))) == MapOf(ps)
    decreases |ps|
  {
    if ps != [] {
      CleanInit(ps);
      CollectParams(ps[..|ps| - 1]);
      CollectParamsStep(ps);
    }
  }

  lemma {:induction false} JoinLast(ss: seq<string>, c: char)
    requires ss != [] && ss[|ss| - 1] != []
    ensures var j := JoinWith(ss, c); j != [] && j[|j| - 1] == ss[|ss| - 1][|ss[|ss| - 1]| - 1]
    decreases |ss|
  {
    if |ss| > 1 {
      var t := JoinWith(ss[1..], c);
      JoinLast(ss[1..], c);
      var j := ss[0] + [c] + t;
      assert JoinWith(ss, c) == j;
      assert j[|j| - 1] == t[|t| - 1];
    }
  }

  lemma ParamEnds(p: Param)
    requires CleanParam(p)
    ensures var t := ParamText(p); t != [] && !IsTrimmable(t[|t| - 1])
    ensures p.pad == [] ==> !IsTrimmable(ParamText(p)[0])
  {
    var t := ParamText(p);
    if p.quoted {
      assert t == p.pad + p.key + "=\"" + p.value + "\"";
    } else if p.value != [] {
      assert t == (p.pad + p.key + "=") + p.value;
      assert t[|t| - 1] == p.value[|p.value| - 1];
    } else {
      assert t == p.pad + p.key + "=";
    }
    if p.pad == [] {
      assert t[0] == p.key[0];
    }
  }

  /** The parameters joined by commas are already trimmed. */
  lemma JoinTrimmed(ps: seq<Param>)
    requires ps != [] && ps[0].pad == []
    requires CleanParams(ps)
    ensures Trimmed(JoinWith(ParamTexts(ps), ','))
  {
    var texts := ParamTexts(ps);
    ParamEnds(ps[0]);
    ParamEnds(ps[|ps| - 1]);
    JoinLast(texts, ',');
    var j := JoinWith(texts, ',');
    assert j[0] == texts[0][0];
  }

  lemma WithoutSchemeOf(scheme: string, j: string)
    requires ' ' !in scheme && Trimmed(j)
    ensures WithoutScheme(scheme + " " + j) == j
  {
    var h := scheme + " " + j;
    IndexOfFirst(scheme, ' ', j);
    assert h == scheme + [' '] + j;
    assert h[|scheme| + 1..] == j;
    TrimPadded("", j, "");
    assert "" + j + "" == j;
  }

  /** The parse recovers the parameters of a client-written header. */
  lemma HeaderRoundTrip(scheme: string, ps: seq<Param>)
    requires ' ' !in scheme && ps != [] && ps[0].pad == []
    requires CleanParams(ps)
    ensures HeaderValues(FormatHeader(scheme, ps)) == MapOf(ps)
  {
    var texts := ParamTexts(ps);
    JoinTrimmed(ps);
    WithoutSchemeOf(scheme, JoinWith(texts, ','));
    forall i | 0 <= i < |texts|
      ensures ',' !in texts[i]
    {
      NoCommaInParam(ps[i]);
    }
    ParamEnds(ps[|ps| - 1]);
    SplitJoin(texts, ',');
    CollectParams(ps);
  }

  lemma NoCommaInParam(p: Param)
    requires CleanParam(p)
    ensures ',' !in ParamText(p)
  {
    var v := if p.quoted then "\"" + p.value + "\"" else p.value;
    assert ParamText(p) == p.pad + p.key + "=" + v;
    assert forall k :: 0 <= k < |p.pad| ==> IsTrimmable(p.pad[k]);
  }

  // ---------------------------------------------------------------------------
  // The challenge: generateAuthenticateHeader and getOpaque

  /** `getOpaque`: the MD5 of the domain followed by the nonce. */
  function Opaque(domain: JString, nonce: string, md5: string -> Md5Hex): Md5Hex {
    md5(Str(domain) + nonce)
  }

  /** The qop the challenge offers: the configured one, unless it is blank. */
  function Offered(qopMethod: JString): (r: JString)
    ensures r.Some? <==> !IsBlank(qopMethod)
    ensures r.Some? ==> r == qopMethod
  {
    if IsBlank(qopMethod) then None else qopMethod
  }

  /** The `WWW-Authenticate` value sent with a 401. */
  function AuthenticateHeader(realm: JString, qopMethod: JString, nonce: string, md5: string -> Md5Hex): string {
    ChallengeHeader(Str(realm), Offered(qopMethod), nonce, Opaque(realm, nonce, md5))
  }

  /** The challenge text for a realm, an offered qop, a nonce and an opaque, in the order it is written. */
  function ChallengeHeader(r: string, q: JString, n: string, o: string): string {
    "Digest " + "realm=\"" + r + "\"" + "," +
    (if q.Some? then "qop=" + q.value + "," else "") +
    "algorithm=\"md5\"" + "," +
    "nonce=\"" + n + "\"" + "," +
    "opaque=\"" + o + "\""
  }

  /** The parameters the challenge carries, in order. */
  function ChallengeParams(realm: JString, qopMethod: JString, nonce: string, md5: string -> Md5Hex): seq<Param> {
    ChallengeList(Str(realm), Offered(qopMethod), nonce, Opaque(realm, nonce, md5))
  }

  function ChallengeList(r: string, q: JString, n: string, o: string): seq<Param> {
    var pr := Param("", "realm", r, true);
    var pa := Param("", "algorithm", "md5", true);
    var pn := Param("", "nonce", n, true);
    var po := Param("", "opaque", o, true);
    if q.None? then [pr, pa, pn, po] else [pr, Param("", "qop", q.value, false), pa, pn, po]
  }

  lemma ChallengeText(r: string, q: string, n: string, o: string)
    ensures "Digest " + "realm=\"" + r + "\"" + "," + q + "algorithm=\"md5\"" + "," + "nonce=\"" + n + "\"" + "," + "opaque=\"" + o + "\""
      == "Digest " + ("realm=\"" + r + "\"" + "," + (q + ("algorithm=\"md5\"" + "," + ("nonce=\"" + n + "\"" + "," + ("opaque=\"" + o + "\"")))))
  {
  }

  lemma QuotedText(k: string, v: string)
    ensures ParamText(Param("", k, v, true)) == k + "=\"" + v + "\""
  {
  }

  lemma BareText(k: string, v: string)
    ensures ParamText(Param("", k, v, false)) == k + "=" + v
  {
  }

  lemma JoinCons(x: string, rest: seq<string>, c: char)
    requires rest != []
    ensures JoinWith([x] + rest, c) == x + [c] + JoinWith(rest, c)
  {
    assert ([x] + rest)[1..] == rest;
  }

  /** The challenge's parameters joined, without a qop. */
  lemma JoinPlain(pr: string, pa: string, pn: string, po: string)
    ensures JoinWith([pr, pa, pn, po], ',') == pr + "," + ("" + (pa + "," + (pn + "," + po)))
  {
    JoinCons(pn, [po], ',');
    assert [pn] + [po] == [pn, po];
    JoinCons(pa, [pn, po], ',');
    assert [pa] + [pn, po] == [pa, pn, po];
    JoinCons(pr, [pa, pn, po], ',');
    assert [pr] + [pa, pn, po] == [pr, pa, pn, po];
    assert "" + (pa + "," + (pn + "," + po)) == pa + "," + (pn + "," + po);
  }

  /** The challenge's parameters joined, with a qop after the realm. */
  lemma JoinQop(pr: string, pq: string, pa: string, pn: string, po: string)
    ensures JoinWith([pr, pq, pa, pn, po], ',') == pr + "," + (pq + "," + (pa + "," + (pn + "," + po)))
  {
    JoinPlain(pq, pa, pn, po);
    JoinCons(pr, [pq, pa, pn, po], ',');
    assert [pr] + [pq, pa, pn, po] == [pr, pq, pa, pn, po];
    assert "" + (pa + "," + (pn + "," + po)) == pa + "," + (pn + "," + po);
  }

  /** The challenge text is the Digest scheme followed by its parameters, separated by commas. */
  lemma ChallengeFormat(r: string, q: JString, n: string, o: string)
    ensures ChallengeHeader(r, q, n, o) == FormatHeader("Digest", ChallengeList(r, q, n, o))
  {
    if q.None? {
      ChallengeFormatPlain(r, n, o);
    } else {
      ChallengeFormatQop(r, q.value, n, o);
    }
  }

  /** The challenge's keys followed by their `=`, as the header writes them. */
  lemma KeyTexts()
    ensures "realm" + "=\"" == "realm=\"" && "nonce" + "=\"" == "nonce=\"" && "opaque" + "=\"" == "opaque=\""
    ensures "algorithm" + "=\"" + "md5" + "\"" == "algorithm=\"md5\"" && "qop" + "=" == "qop="
  {
  }

  lemma Texts4(a: Param, b: Param, c: Param, d: Param)
    ensures ParamTexts([a, b, c, d]) == [ParamText(a), ParamText(b), ParamText(c), ParamText(d)]
  {
  }

  lemma Texts5(a: Param, b: Param, c: Param, d: Param, e: Param)
    ensures ParamTexts([a, b, c, d, e]) == [ParamText(a), ParamText(b), ParamText(c), ParamText(d), ParamText(e)]
  {
  }

  /** The header starts with the scheme and a space, however the two are joined. */
  lemma DigestSpace(j: string)
    ensures "Digest" + " " + j == "Digest " + j
  {
    assert "Digest" + " " == "Digest ";
  }

  lemma ChallengeFormatPlain(r: string, n: string, o: string)
    ensures ChallengeHeader(r, None, n, o) == FormatHeader("Digest", ChallengeList(r, None, n, o))
  {
    var pr, pa, pn, po := "realm=\"" + r + "\"", "algorithm=\"md5\"", "nonce=\"" + n + "\"", "opaque=\"" + o + "\"";
    Texts4(Param("", "realm", r, true), Param("", "algorithm", "md5", true), Param("", "nonce", n, true),
           Param("", "opaque", o, true));
    QuotedText("realm", r);
    QuotedText("algorithm", "md5");
    QuotedText("nonce", n);
    QuotedText("opaque", o);
    KeyTexts();
    JoinPlain(pr, pa, pn, po);
    ChallengeText(r, "", n, o);
    DigestSpace(JoinWith(ParamTexts(ChallengeList(r, None, n, o)), ','));
  }

  lemma ChallengeFormatQop(r: string, qv: string, n: string, o: string)
    ensures ChallengeHeader(r, Some(qv), n, o) == FormatHeader("Digest", ChallengeList(r, Some(qv), n, o))
  {
    var pr, pa, pn, po := "realm=\"" + r + "\"", "algorithm=\"md5\"", "nonce=\"" + n + "\"", "opaque=\"" + o + "\"";
    var pq := "qop=" + qv;
    Texts5(Param("", "realm", r, true), Param("", "qop", qv, false), Param("", "algorithm", "md5", true),
           Param("", "nonce", n, true), Param("", "opaque", o, true));
    QuotedText("realm", r);
    QuotedText("algorithm", "md5");
    QuotedText("nonce", n);
    QuotedText("opaque", o);
    BareText("qop", qv);
    KeyTexts();
    JoinQop(pr, pq, pa, pn, po);
    var tail := pa + "," + (pn + "," + po);
    ChallengeText(r, "qop=" + qv + ",", n, o);
    assert pq + "," + tail == "qop=" + qv + "," + tail;
    DigestSpace(JoinWith(ParamTexts(ChallengeList(r, Some(qv), n, o)), ','));
  }

  /** MD5 digests are clean header values. */
  lemma HexClean(h: Md5Hex)
    ensures CleanValue(h)
  {
    assert IsLowerHex(h[0]) && IsLowerHex(h[31]);
    assert forall k :: 0 <= k < |h| ==> h[k] != ',' && h[k] != '"';
  }

  lemma MapOfSnoc(ps: seq<Param>, p: Param)
    ensures MapOf(ps + [p]) == MapOf(ps)[p.key := p.value]
  {
    assert (ps + [p])[..|ps|] == ps;
  }

  lemma CleanFour(a: Param, b: Param, c: Param, d: Param)
    requires CleanParam(a) && CleanParam(b) && CleanParam(c) && CleanParam(d)
    ensures CleanParams([a, b, c, d])
  {
  }

  lemma CleanFive(a: Param, b: Param, c: Param, d: Param, e: Param)
    requires CleanParam(a) && CleanParam(b) && CleanParam(c) && CleanParam(d) && CleanParam(e)
    ensures CleanParams([a, b, c, d, e])
  {
  }

  lemma AlgorithmClean()
    ensures CleanParam(Param("", "algorithm", "md5", true))
  {
    assert "md5"[0] == 'm' && "md5"[2] == '5';
  }

  lemma ChallengeClean(r: string, q: JString, n: string, o: string)
    requires CleanValue(r) && CleanValue(n) && CleanValue(o)
    requires q.Some? ==> CleanValue(q.value)
    ensures var ps := ChallengeList(r, q, n, o); ps[0].pad == [] && CleanParams(ps)
  {
    var pr := Param("", "realm", r, true);
    var pa := Param("", "algorithm", "md5", true);
    var pn := Param("", "nonce", n, true);
    var po := Param("", "opaque", o, true);
    AlgorithmClean();
    if q.None? {
      CleanFour(pr, pa, pn, po);
    } else {
      CleanFive(pr, Param("", "qop", q.value, false), pa, pn, po);
    }
  }

  /** The parameters of the challenge, as a map. */
  lemma ChallengeMap(r: string, q: JString, n: string, o: string)
    ensures MapOf(ChallengeList(r, q, n, o)) ==
      if q.None? then map["realm" := r, "algorithm" := "md5", "nonce" := n, "opaque" := o]
      else map["realm" := r, "qop" := q.value, "algorithm" := "md5", "nonce" := n, "opaque" := o]
  {
    var pr := Param("", "realm", r, true);
    var pa := Param("", "algorithm", "md5", true);
    var pn := Param("", "nonce", n, true);
    var po := Param("", "opaque", o, true);
    var head := if q.None? then [pr] else [pr, Param("", "qop", q.value, false)];
    assert ChallengeList(r, q, n, o) == head + [pa] + [pn] + [po];
    MapOfSnoc(head + [pa] + [pn], po);
    MapOfSnoc(head + [pa], pn);
    MapOfSnoc(head, pa);
    MapOfSnoc([], pr);
    assert [] + [pr] == [pr];
    if q.Some? {
      MapOfSnoc([pr], Param("", "qop", q.value, false));
      assert [pr] + [Param("", "qop", q.value, false)] == head;
    }
  }

  /**
   * Parsing the challenge gives back its realm, qop, algorithm, nonce and
   * opaque, provided the realm, nonce and qop carry nothing the parse strips.
   */
  lemma ChallengeValues(realm: JString, qopMethod: JString, nonce: string, md5: string -> Md5Hex)
    requires CleanValue(Str(realm)) && CleanValue(nonce)
    requires !IsBlank(qopMethod) ==> CleanValue(qopMethod.value)
    ensures var v := HeaderValues(AuthenticateHeader(realm, qopMethod, nonce, md5));
      var o := Opaque(realm, nonce, md5);
      v == if IsBlank(qopMethod) then map["realm" := Str(realm), "algorithm" := "md5", "nonce" := nonce, "opaque" := o]
           else map["realm" := Str(realm), "qop" := qopMethod.value, "algorithm" := "md5", "nonce" := nonce, "opaque" := o]
  {
    var r, q, o := Str(realm), Offered(qopMethod), Opaque(realm, nonce, md5);
    HexClean(o);
    ChallengeClean(r, q, nonce, o);
    ChallengeFormat(r, q, nonce, o);
    HeaderRoundTrip("Digest", ChallengeList(r, q, nonce, o));
    ChallengeMap(r, q, nonce, o);
  }

  // ---------------------------------------------------------------------------
  // The response check: preAuthenticateUsingDigest

  /** `HashMap.get`: the value stored under `key`, or null. */
  function Get(m: map<string, string>, key: string): (r: JString)
    ensures r.Some? <==> key in m
    ensures r.Some? ==> r.value == m[key]
  {
    if key in m then Some(m[key]) else None
  }

  /** The object a successful check returns. */
  datatype AuthenticationDigest =
    AuthenticationDigest(verb: string, ha1: string, qop: JString, ha2: string, uri: JString, realm: JString)

  /**
   * What the check ends in: the digest object, null, or the
   * exception `md5Hex` throws on a null body when the qop is `auth-int`.
   */
  datatype DigestOutcome = Accepted(digest: AuthenticationDigest) | Rejected | BodyMissing

  /** The password the server hashes into HA1; the source fixes it. */
  const Password := "password"

  /** HA1: the hash of user, realm and password. */
  function HA1(username: string, realm: JString, md5: string -> Md5Hex): Md5Hex {
    md5(username + ":" + Str(realm) + ":" + Password)
  }

  /** `!StringUtils.isBlank(qop) && qop.equals("auth-int")` */
  predicate IsAuthInt(qop: JString) {
    !IsBlank(qop) && qop == Some("auth-int")
  }

  /** HA2, over the body's hash as well for `auth-int`; None where hashing a null body throws. */
  function HA2(verb: string, uri: JString, qop: JString, body: JString, md5: string -> Md5Hex): Option<Md5Hex> {
    if IsAuthInt(qop) then
      if body.None? then None else Some(md5(verb + ":" + Str(uri) + ":" + md5(body.value)))
    else
      Some(md5(verb + ":" + Str(uri)))
  }

  /** The response the server expects, with or without the qop fields. */
  function ServerResponse(ha1: string, nonce: string, ha2: string, qop: JString, nc: JString, cnonce: JString,
                          md5: string -> Md5Hex): Md5Hex {
    if IsBlank(qop) then md5(ha1 + ":" + nonce + ":" + ha2)
    else md5(ha1 + ":" + nonce + ":" + Str(nc) + ":" + Str(cnonce) + ":" + Str(qop) + ":" + ha2)
  }

  /** The check over the parsed header `values`, for the server's `username`, `realm` and `nonce`. */
  function CheckDigest(values: map<string, string>, verb: string, body: JString, realm: JString,
                       nonce: string, username: string, md5: string -> Md5Hex): (r: DigestOutcome)
    ensures r.BodyMissing? <==> Get(values, "qop") == Some("auth-int") && body.None?
    ensures r.Accepted? ==> "response" in values
    ensures r.Accepted? ==> r.digest == AuthenticationDigest(verb, HA1(username, realm, md5), Get(values, "qop"),
      r.digest.ha2, Get(values, "uri"), realm)
  {
    var qop := Get(values, "qop");
    var uri := Get(values, "uri");
    var ha1 := HA1(username, realm, md5);
    assert qop == Some("auth-int") ==> !IsBlank(qop) by {
      assert IsWhitespace("auth-int"[0]) == false;
    }
    match HA2(verb, uri, qop, body, md5)
    case None => BodyMissing
    case Some(ha2) =>
      var expected := ServerResponse(ha1, nonce, ha2, qop, Get(values, "nc"), Get(values, "cnonce"), md5);
      if Get(values, "response") == Option<string>.Some(expected) then
        Accepted(AuthenticationDigest(verb, ha1, qop, ha2, uri, realm))
      else
        Rejected
  }

  /** The check on the raw header: parse, then compare. */
  function Authenticate(header: string, verb: string, body: JString, realm: JString,
                        nonce: string, username: string, md5: string -> Md5Hex): DigestOutcome {
    CheckDigest(HeaderValues(header), verb, body, realm, nonce, username, md5)
  }

  /** `preAuthenticateUsingDigest`, step by step as the source computes it. */
  method PreAuthenticateUsingDigest(header: string, verb: string, body: JString, realm: JString,
                                    nonce: string, username: string, md5: string -> Md5Hex)
    returns (r: DigestOutcome)
    ensures r == Authenticate(header, verb, body, realm, nonce, username, md5)
  {
    var values := ParseHeaderValues(header);
    var ha1 := md5(username + ":" + Str(realm) + ":" + Password);
    var qop := Get(values, "qop");
    var uri := Get(values, "uri");
    var ha2;
    if !IsBlank(qop) && qop == Some("auth-int") {
      if body.None? {
        return BodyMissing;
      }
      var entityBodyMd5 := md5(body.value);
      ha2 := md5(verb + ":" + Str(uri) + ":" + entityBodyMd5);
    } else {
      ha2 := md5(verb + ":" + Str(uri));
    }
    var digest := AuthenticationDigest(verb, ha1, qop, ha2, uri, realm);
    var serverResponse;
    if IsBlank(qop) {
      serverResponse := md5(ha1 + ":" + nonce + ":" + ha2);
    } else {
      var nonceCount := Get(values, "nc");
      var clientNonce := Get(values, "cnonce");
      serverResponse := md5(ha1 + ":" + nonce + ":" + Str(nonceCount) + ":" + Str(clientNonce) + ":" + Str(qop) + ":" + ha2);
    }
    var clientResponse := Get(values, "response");
    if clientResponse != Option<string>.Some(serverResponse) {
      r := Rejected;
    } else {
      r := Accepted(digest);
    }
  }

  // ---------------------------------------------------------------------------
  // RFC 2617 as a client computes it

  /** What a client knows when it answers a challenge. */
  datatype Credentials = Credentials(username: string, password: string, realm: string, nonce: string,
                                     verb: string, uri: string, qop: Option<string>, nc: string,
                                     cnonce: string, body: string)

  /** KD of section 3.2.1 of RFC 2617, with MD5 as the algorithm. */
  function KD(secret: string, data: string, md5: string -> Md5Hex): Md5Hex {
    md5(secret + ":" + data)
  }

  /** request-digest of section 3.2.2.1 of RFC 2617, with A1 and A2 of sections 3.2.2.2 and 3.2.2.3. */
  function RequestDigest(c: Credentials, md5: string -> Md5Hex): Md5Hex {
    var a1 := c.username + ":" + c.realm + ":" + c.password;
    var a2 := if c.qop == Some("auth-int") then c.verb + ":" + c.uri + ":" + md5(c.body) else c.verb + ":" + c.uri;
    if c.qop.Some? then
      KD(md5(a1), c.nonce + ":" + c.nc + ":" + c.cnonce + ":" + c.qop.value + ":" + md5(a2), md5)
    else
      KD(md5(a1), c.nonce + ":" + md5(a2), md5)
  }

  /**
   * The credentials the server checks a header against: its own user,
   * password, realm and nonce, with the header's uri, qop, nc and cnonce (a
   * blank qop counting as none, a missing field as the text "null").
   */
  function ServerCredentials(values: map<string, string>, verb: string, body: JString, realm: JString,
                             nonce: string, username: string): Credentials {
    var qop := Get(values, "qop");
    Credentials(username, Password, Str(realm), nonce, verb, Str(Get(values, "uri")),
                if IsBlank(qop) then None else qop, Str(Get(values, "nc")), Str(Get(values, "cnonce")),
                if body.Some? then body.value else "")
  }

  /**
   * Unless hashing a missing body throws, a header passes exactly when its
   * `response` is the RFC 2617 request-digest of the server's credentials.
   */
  lemma CheckDigestIsRfc2617(values: map<string, string>, verb: string, body: JString, realm: JString,
                             nonce: string, username: string, md5: string -> Md5Hex)
    requires !(Get(values, "qop") == Some("auth-int") && body.None?)
    ensures CheckDigest(values, verb, body, realm, nonce, username, md5).Accepted? <==>
      Get(values, "response") == Option<string>.Some(RequestDigest(ServerCredentials(values, verb, body, realm, nonce, username), md5))
  {
    var c := ServerCredentials(values, verb, body, realm, nonce, username);
    var qop := Get(values, "qop");
    var a1 := c.username + ":" + c.realm + ":" + c.password;
    assert a1 == username + ":" + Str(realm) + ":" + Password;
    var ha1 := HA1(username, realm, md5);
    assert IsAuthInt(qop) <==> c.qop == Some("auth-int") by {
      assert IsWhitespace("auth-int"[0]) == false;
    }
    var ha2 := HA2(verb, Get(values, "uri"), qop, body, md5).value;
    var a2 := if c.qop == Some("auth-int") then c.verb + ":" + c.uri + ":" + md5(c.body) else c.verb + ":" + c.uri;
    assert md5(a2) == ha2;
    if c.qop.Some? {
      assert c.qop.value == Str(qop);
      ColonsAssociate(ha1, c.nonce, c.nc, c.cnonce, c.qop.value, ha2);
    } else {
      ColonsAssociate(ha1, c.nonce, "", "", "", ha2);
    }
  }

  /** KD's colon after the secret regroups with the colons inside the data. */
  lemma ColonsAssociate(h: string, n: string, nc: string, cn: string, q: string, h2: string)
    ensures h + ":" + (n + ":" + nc + ":" + cn + ":" + q + ":" + h2) == h + ":" + n + ":" + nc + ":" + cn + ":" + q + ":" + h2
    ensures h + ":" + (n + ":" + h2) == h + ":" + n + ":" + h2
  {
  }

  /** The credentials carry nothing the header parse would strip or split on. */
  predicate CleanCredentials(c: Credentials) {
    CleanValue(c.username) && CleanValue(c.realm) && CleanValue(c.nonce) && CleanValue(c.uri) &&
    CleanValue(c.nc) && CleanValue(c.cnonce) &&
    (c.qop.Some? ==> CleanValue(c.qop.value) && !IsBlank(c.qop))
  }

  /** The Authorization parameters of section 3.2.2 of RFC 2617 a client sends, a space after each comma. */
  function ClientParams(c: Credentials, response: string): seq<Param> {
    var u := Param("", "username", c.username, true);
    var r := Param(" ", "realm", c.realm, true);
    var n := Param(" ", "nonce", c.nonce, true);
    var i := Param(" ", "uri", c.uri, true);
    var d := Param(" ", "response", response, true);
    if c.qop.Some? then
      [u, r, n, i, Param(" ", "qop", c.qop.value, false), Param(" ", "nc", c.nc, false),
       Param(" ", "cnonce", c.cnonce, true), d]
    else [u, r, n, i, d]
  }

  lemma ClientClean(c: Credentials, response: string)
    requires CleanCredentials(c) && CleanValue(response)
    ensures var ps := ClientParams(c, response); ps != [] && ps[0].pad == [] && CleanParams(ps)
  {
    if c.qop.Some? {
      ClientCleanQop(c, response);
    } else {
      ClientCleanPlain(c, response);
    }
  }

  /** The first four parameters of a client's header are clean. */
  lemma ClientHeadClean(c: Credentials)
    requires CleanCredentials(c)
    ensures CleanParams([Param("", "username", c.username, true), Param(" ", "realm", c.realm, true),
                         Param(" ", "nonce", c.nonce, true), Param(" ", "uri", c.uri, true)])
  {
    assert AllTrimmable(" ");
    var u := Param("", "username", c.username, true);
    var r := Param(" ", "realm", c.realm, true);
    var n := Param(" ", "nonce", c.nonce, true);
    var i := Param(" ", "uri", c.uri, true);
    assert CleanParams([u]);
    CleanSnoc([u], r);
    CleanSnoc([u] + [r], n);
    CleanSnoc([u] + [r] + [n], i);
    assert [u] + [r] + [n] + [i] == [u, r, n, i];
  }

  lemma ClientCleanPlain(c: Credentials, response: string)
    requires CleanCredentials(c) && CleanValue(response) && c.qop.None?
    ensures CleanParams(ClientParams(c, response))
  {
    var head := [Param("", "username", c.username, true), Param(" ", "realm", c.realm, true),
                 Param(" ", "nonce", c.nonce, true), Param(" ", "uri", c.uri, true)];
    var d := Param(" ", "response", response, true);
    ClientHeadClean(c);
    assert AllTrimmable(" ");
    CleanSnoc(head, d);
    assert ClientParams(c, response) == head + [d];
  }

  lemma ClientCleanQop(c: Credentials, response: string)
    requires CleanCredentials(c) && CleanValue(response) && c.qop.Some?
    ensures CleanParams(ClientParams(c, response))
  {
    var head := [Param("", "username", c.username, true), Param(" ", "realm", c.realm, true),
                 Param(" ", "nonce", c.nonce, true), Param(" ", "uri", c.uri, true)];
    var q := Param(" ", "qop", c.qop.value, false);
    var nc := Param(" ", "nc", c.nc, false);
    var cn := Param(" ", "cnonce", c.cnonce, true);
    var d := Param(" ", "response", response, true);
    ClientHeadClean(c);
    assert AllTrimmable(" ");
    CleanSnoc(head, q);
    CleanSnoc(head + [q], nc);
    CleanSnoc(head + [q] + [nc], cn);
    CleanSnoc(head + [q] + [nc] + [cn], d);
    assert ClientParams(c, response) == head + [q] + [nc] + [cn] + [d];
  }

  lemma ClientMap(c: Credentials, response: string)
    ensures var m := MapOf(ClientParams(c, response));
      Get(m, "uri") == Some(c.uri) && Get(m, "qop") == c.qop && Get(m, "response") == Some(response) &&
      (c.qop.Some? ==> Get(m, "nc") == Some(c.nc) && Get(m, "cnonce") == Some(c.cnonce))
  {
    var ps := ClientParams(c, response);
    var n := |ps|;
    MapOfLastWins(ps, 3);
    MapOfLastWins(ps, n - 1);
    if c.qop.Some? {
      MapOfLastWins(ps, 4);
      MapOfLastWins(ps, 5);
      MapOfLastWins(ps, 6);
    } else {
      MapOfKeys(ps, "qop");
    }
  }

  /** The map the server parses out of a client's header. */
  lemma ClientValues(c: Credentials, response: string)
    requires CleanCredentials(c) && CleanValue(response)
    ensures var v := HeaderValues(FormatHeader("Digest", ClientParams(c, response)));
      Get(v, "uri") == Some(c.uri) && Get(v, "qop") == c.qop && Get(v, "response") == Some(response) &&
      (c.qop.Some? ==> Get(v, "nc") == Some(c.nc) && Get(v, "cnonce") == Some(c.cnonce))
  {
    ClientClean(c, response);
    HeaderRoundTrip("Digest", ClientParams(c, response));
    ClientMap(c, response);
  }

  /**
   * End to end: the server accepts a header written by an RFC 2617 client
   * that holds the server's user, password, realm and nonce exactly when the
   * header's `response` is that client's request-digest.
   */
  lemma ClientAccepted(c: Credentials, response: string, body: JString, realm: JString, nonce: string,
                       username: string, md5: string -> Md5Hex)
    requires CleanCredentials(c) && CleanValue(response)
    requires c.username == username && c.password == Password && c.realm == Str(realm) && c.nonce == nonce
    requires c.qop == Some("auth-int") ==> body == Some(c.body)
    ensures Authenticate(FormatHeader("Digest", ClientParams(c, response)), c.verb, body, realm, nonce, username, md5)
      == if response == RequestDigest(c, md5) then
           Accepted(AuthenticationDigest(c.verb, HA1(username, realm, md5), c.qop,
             HA2(c.verb, Some(c.uri), c.qop, body, md5).value, Some(c.uri), realm))
         else Rejected
  {
    var v := HeaderValues(FormatHeader("Digest", ClientParams(c, response)));
    ClientValues(c, response);
    CheckDigestIsRfc2617(v, c.verb, body, realm, nonce, username, md5);
    var s := ServerCredentials(v, c.verb, body, realm, nonce, username);
    assert s.qop == c.qop;
    if c.qop.Some? {
      assert s.nc == c.nc && s.cnonce == c.cnonce;
    }
    if c.qop == Some("auth-int") {
      assert s.body == c.body;
    }
    assert RequestDigest(s, md5) == RequestDigest(c, md5);
  }
}

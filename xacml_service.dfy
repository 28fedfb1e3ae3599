/**
 * `XacmlContentHandlerService`: the servlet in front of the XACML PDP. Each
 * GET or POST goes through admission (content length and type), the parse of
 * the body, the Digest or wrapper check, and then one of 401, 400, 403 or a
 * rendered body.
 *
 * The decisions are pure functions (`GetOutcome`, `PostOutcome`) and their
 * effect on the response is `Respond`; the handler methods carry out the
 * same steps on a `Response` object and are proved to end in that state.
 */
module XacmlService {
  import opened JavaText
  import opened Http
  import opened Digest
  import opened XacmlRequest

  /** `defaultMaxLength`: the content-length limit used when the configured one is malformed. */
  const DefaultMaxLength := 16384

  /**
   * What the servlet holds once initialised: the length limit (0 turns the
   * length checks off), the current nonce, the qop it offers, the user it
   * checks, the Digest scheme prefix, the challenge header's name, the XML
   * declaration it prepends, and the library code it calls.
   */
  datatype Config = Config(maxContentLength: int, nonce: string, authenticationMethod: JString,
                           username: string, digestScheme: string, wwwAuthenticateHeader: string,
                           xmlHeader: string, md5: string -> Md5Hex,
                           normalize: string -> Option<ContentType>,
                           parse: string -> Option<Document>)

  /**
   * What the handlers read from an HTTP request. The servlet container calls
   * `doGet` only for a GET and `doPost` only for a POST, so `verb` (the method
   * that goes into HA2 of the Digest check) is "GET" or "POST" there; the
   * handlers below do not depend on it otherwise.
   */
  datatype Request = Request(verb: string, contentLength: int, contentType: JString,
                             authorization: JString, body: JString, realm: JString)

  /**
   * What the code the handlers delegate to returns: the home document of a
   * GET (None where it throws a JSON exception) and the PDP's answer to a
   * wrapped POST.
   */
  datatype Delegates = Delegates(home: Option<JString>, pdpResponse: JString)

  // ---------------------------------------------------------------------------
  // Admission: preProcessingRequest

  /** The content type `preProcessingRequest` returns; NONE means the request was refused. */
  function RequestContentType(maxLength: int, req: Request, normalize: string -> Option<ContentType>): ContentType {
    if maxLength != 0 && (req.contentLength < 0 || req.contentLength > maxLength) then NONE
    else if req.contentType.None? || normalize(req.contentType.value).None? then NONE
    else normalize(req.contentType.value).value
  }

  /** The response after `preProcessingRequest`. */
  function AdmissionReply(r: Reply, maxLength: int, req: Request, normalize: string -> Option<ContentType>): Reply {
    if maxLength != 0 && req.contentLength < 0 then
      r.(status := SC_LENGTH_REQUIRED, encoding := Some(UTF8))
    else if maxLength != 0 && req.contentLength > maxLength then
      r.(status := SC_REQUEST_ENTITY_TOO_LARGE, encoding := Some(UTF8))
    else if req.contentType.None? || normalize(req.contentType.value).None? then
      r.(status := SC_UNSUPPORTED_MEDIA_TYPE, encoding := Some(UTF8), length := Some(0))
    else r
  }

  method PreProcessingRequest(cfg: Config, req: Request, response: Response) returns (ct: ContentType)
    modifies response
    ensures ct == RequestContentType(cfg.maxContentLength, req, cfg.normalize)
    ensures response.Snapshot() == AdmissionReply(old(response.Snapshot()), cfg.maxContentLength, req, cfg.normalize)
  {
    if cfg.maxContentLength != 0 {
      if req.contentLength < 0 {
        response.SetStatus(SC_LENGTH_REQUIRED);
        response.SetCharacterEncoding(UTF8);
        return NONE;
      }
      if req.contentLength > cfg.maxContentLength {
        response.SetStatus(SC_REQUEST_ENTITY_TOO_LARGE);
        response.SetCharacterEncoding(UTF8);
        return NONE;
      }
    }
    var requestContentType := if req.contentType.None? then None else cfg.normalize(req.contentType.value);
    if requestContentType.None? {
      response.SetStatus(SC_UNSUPPORTED_MEDIA_TYPE);
      response.SetCharacterEncoding(UTF8);
      response.SetContentLength(0);
      return NONE;
    }
    return requestContentType.value;
  }

  /** A negative declared length is refused with 411 before the content type is looked at. */
  lemma LengthRequired(maxLength: int, req: Request, normalize: string -> Option<ContentType>, r: Reply)
    requires maxLength != 0 && req.contentLength < 0
    ensures RequestContentType(maxLength, req, normalize) == NONE
    ensures AdmissionReply(r, maxLength, req, normalize) == r.(status := SC_LENGTH_REQUIRED, encoding := Some(UTF8))
  {
  }

  /** A declared length over the limit is refused with 413 before the content type is looked at. */
  lemma TooLarge(maxLength: int, req: Request, normalize: string -> Option<ContentType>, r: Reply)
    requires maxLength != 0 && req.contentLength > maxLength && req.contentLength >= 0
    ensures RequestContentType(maxLength, req, normalize) == NONE
    ensures AdmissionReply(r, maxLength, req, normalize) ==
      r.(status := SC_REQUEST_ENTITY_TOO_LARGE, encoding := Some(UTF8))
  {
  }

  /** With the limit at 0 the declared length plays no part in admission. */
  lemma NoLimit(req: Request, length: int, normalize: string -> Option<ContentType>, r: Reply)
    ensures RequestContentType(0, req, normalize) == RequestContentType(0, req.(contentLength := length), normalize)
    ensures AdmissionReply(r, 0, req, normalize) == AdmissionReply(r, 0, req.(contentLength := length), normalize)
  {
  }

  /**
   * Past the length checks, a missing or unrecognised content type is
   * refused with 415 and length 0; otherwise the normalised type is returned
   * and the response is untouched.
   */
  lemma MediaTypeChecked(maxLength: int, req: Request, normalize: string -> Option<ContentType>, r: Reply)
    requires maxLength == 0 || 0 <= req.contentLength <= maxLength
    ensures req.contentType.None? || normalize(req.contentType.value).None? ==>
      RequestContentType(maxLength, req, normalize) == NONE &&
      AdmissionReply(r, maxLength, req, normalize) ==
        r.(status := SC_UNSUPPORTED_MEDIA_TYPE, encoding := Some(UTF8), length := Some(0))
    ensures req.contentType.Some? && normalize(req.contentType.value).Some? ==>
      RequestContentType(maxLength, req, normalize) == normalize(req.contentType.value).value &&
      AdmissionReply(r, maxLength, req, normalize) == r
  {
  }

  // ---------------------------------------------------------------------------
  // Rendering: renderResponse, renderUnAuthorized, renderBadRequest

  /** The response after `renderResponse`: a body is written only when the text is not blank after trimming. */
  function RenderedReply(r: Reply, ct: ContentType, text: JString): Reply
    requires ct.Media?
  {
    var typed := r.(contentType := Some(ct.applicationType), encoding := Some(UTF8));
    if text.Some? && Trim(text.value) != "" then
      typed.(length := Some(|text.value|), body := r.body + text.value)
    else
      typed.(length := Some(0))
  }

  /** An empty response with the given status. */
  function EmptyReply(r: Reply, ct: ContentType, status: int): Reply
    requires ct.Media?
  {
    RenderedReply(r.(encoding := Some(UTF8), length := Some(0), status := status), ct, None)
  }

  /** The response after `renderUnAuthorized`: the challenge header and 401. */
  function UnauthorizedReply(r: Reply, cfg: Config, realm: JString, ct: ContentType): Reply
    requires ct.Media?
  {
    var challenge := AuthenticateHeader(realm, cfg.authenticationMethod, cfg.nonce, cfg.md5);
    EmptyReply(r.(headers := r.headers + [(cfg.wwwAuthenticateHeader, challenge)]), ct, SC_UNAUTHORIZED)
  }

  method RenderResponse(ct: ContentType, text: JString, response: Response)
    requires ct.Media?
    modifies response
    ensures response.Snapshot() == RenderedReply(old(response.Snapshot()), ct, text)
  {
    response.SetContentType(ct.applicationType);
    response.SetCharacterEncoding(UTF8);
    if text.Some? && Trim(text.value) != "" {
      response.SetContentLength(|text.value|);
      response.Write(text.value);
    } else {
      response.SetContentLength(0);
    }
  }

  method RenderUnAuthorized(cfg: Config, realm: JString, ct: ContentType, response: Response)
    requires ct.Media?
    modifies response
    ensures response.Snapshot() == UnauthorizedReply(old(response.Snapshot()), cfg, realm, ct)
  {
    var challenge := AuthenticateHeader(realm, cfg.authenticationMethod, cfg.nonce, cfg.md5);
    response.AddHeader(cfg.wwwAuthenticateHeader, challenge);
    response.SetCharacterEncoding(UTF8);
    response.SetContentLength(0);
    response.SetStatus(SC_UNAUTHORIZED);
    RenderResponse(ct, None, response);
  }

  /** `renderBadRequest`, and the 403 branch of `doPost`, which does the same with its own status. */
  method RenderEmpty(ct: ContentType, status: int, response: Response)
    requires ct.Media?
    modifies response
    ensures response.Snapshot() == EmptyReply(old(response.Snapshot()), ct, status)
  {
    response.SetCharacterEncoding(UTF8);
    response.SetContentLength(0);
    response.SetStatus(status);
    RenderResponse(ct, None, response);
  }

  /** A rendered text is written in full, with its length, exactly when it is not blank; nothing else but type and encoding change. */
  lemma RenderedWrites(r: Reply, ct: ContentType, text: JString)
    requires ct.Media?
    ensures var after := RenderedReply(r, ct, text);
      after.status == r.status && after.headers == r.headers &&
      after.contentType == Some(ct.applicationType) && after.encoding == Some(UTF8) &&
      (text.Some? && Trim(text.value) != "" ==> after.body == r.body + text.value && after.length == Some(|text.value|)) &&
      (text.None? || Trim(text.value) == "" ==> after.body == r.body && after.length == Some(0))
  {
  }

  /** A padded-out blank text writes nothing. */
  lemma BlankNotWritten(r: Reply, ct: ContentType, w: string)
    requires ct.Media? && AllTrimmable(w)
    ensures RenderedReply(r, ct, Some(w)).body == r.body
  {
    TrimPadded(w, "", "");
    assert w + "" + "" == w;
  }

  /** The 401 response carries the challenge, no body, and length 0. */
  lemma UnauthorizedShape(r: Reply, cfg: Config, realm: JString, ct: ContentType)
    requires ct.Media?
    ensures var after := UnauthorizedReply(r, cfg, realm, ct);
      after.status == SC_UNAUTHORIZED && after.length == Some(0) && after.body == r.body &&
      after.headers == r.headers + [(cfg.wwwAuthenticateHeader, AuthenticateHeader(realm, cfg.authenticationMethod, cfg.nonce, cfg.md5))]
  {
  }

  // ---------------------------------------------------------------------------
  // The handlers: doGet and doPost

  /** Where a request ends. */
  datatype Outcome =
    | Refused          // preProcessingRequest gave NONE; its status stands
    | Challenge        // 401 with a Digest challenge
    | BadRequest       // 400
    | Forbidden        // 403
    | Render(text: JString)   // renderResponse with this text
    | Fault            // hashing a missing body threw; nothing more is written

  /** The parse state `parseRequestInformation` leaves: XML bodies go through `parseXMLRequest`; the JSON parse does nothing. */
  function ParsedRequest(cfg: Config, ct: ContentType, req: Request): Parsed
    requires ct.Media?
  {
    var p0 := Parsed(None, None, EmptyQuery, false);
    if ct.commonType == XML then ParseXml(p0, req.body, cfg.xmlHeader, cfg.parse) else p0
  }

  predicate HasHeader(req: Request) {
    req.authorization.Some? && req.authorization.value != ""
  }

  /** How the Digest or wrapper check of a handler ends. */
  datatype CredentialCheck =
    | Faulted                  // hashing a missing body threw
    | Denied                   // a 401 challenge was sent
    | Passed(digestValid: bool)

  /** What `preAuthenticateUsingDigest` makes of the request's header. */
  function DigestOf(cfg: Config, req: Request): DigestOutcome
    requires req.authorization.Some?
  {
    Authenticate(req.authorization.value, req.verb, req.body, req.realm, cfg.nonce, cfg.username, cfg.md5)
  }

  /**
   * The Digest or wrapper check: a request whose header the handler takes for
   * Digest stands or falls by it; any other passes, unauthenticated, only
   * when the body carries a wrapper.
   */
  function CredentialsOf(cfg: Config, req: Request, p: Parsed, digestHeader: bool): CredentialCheck
    requires digestHeader ==> req.authorization.Some?
  {
    if digestHeader then
      match DigestOf(cfg, req)
      case BodyMissing => Faulted
      case Rejected => Denied
      case Accepted(_) => Passed(true)
    else if p.wrapper.None? then Denied
    else Passed(false)
  }

  /** The check in each case, spelled out. */
  lemma CredentialsCases(cfg: Config, req: Request, p: Parsed, digestHeader: bool)
    requires digestHeader ==> req.authorization.Some?
    ensures var c := CredentialsOf(cfg, req, p, digestHeader);
      (digestHeader ==>
        (c == Faulted <==> DigestOf(cfg, req).BodyMissing?) &&
        (c == Denied <==> DigestOf(cfg, req).Rejected?) &&
        (c == Passed(true) <==> DigestOf(cfg, req).Accepted?)) &&
      (!digestHeader ==> c == if p.wrapper.None? then Denied else Passed(false))
  {
    if digestHeader {
      match DigestOf(cfg, req)
      case BodyMissing =>
      case Rejected =>
      case Accepted(_) =>
    }
  }

  /** `doPost` takes any header starting with the Digest scheme for Digest. */
  predicate PostDigestHeader(cfg: Config, req: Request) {
    req.authorization.Some? && StartsWith(req.authorization.value, cfg.digestScheme)
  }

  /** `doGet` also asks the header to be non-empty. */
  predicate GetDigestHeader(cfg: Config, req: Request) {
    HasHeader(req) && StartsWith(req.authorization.value, cfg.digestScheme)
  }

  /** The check `doPost` makes on a request parsed into `p`. */
  function PostCredentials(cfg: Config, req: Request, p: Parsed): CredentialCheck {
    CredentialsOf(cfg, req, p, PostDigestHeader(cfg, req))
  }

  /** The check `doGet` makes on a request parsed into `p`. */
  function GetCredentials(cfg: Config, req: Request, p: Parsed): CredentialCheck {
    CredentialsOf(cfg, req, p, GetDigestHeader(cfg, req))
  }

  /**
   * Where `doPost` goes once the request is admitted, parsed into `p`, and
   * its check ended in `c`: the length-0 challenge and the 400 for a bare
   * `Request` come before the check.
   */
  function PostDecision(req: Request, p: Parsed, c: CredentialCheck, d: Delegates): Outcome {
    if req.contentLength == 0 && HasHeader(req) then Challenge
    else if p.requestNodePresent then BadRequest
    else PostAfterCheck(c, p, d)
  }

  function PostAfterCheck(c: CredentialCheck, p: Parsed, d: Delegates): Outcome {
    match c
    case Faulted => Fault
    case Denied => Challenge
    case Passed(digestValid) => PdpOutcome(digestValid, p, d)
  }

  /** After the check: only a valid Digest is authenticated; a wrapped request is answered by the PDP. */
  function PdpOutcome(digestValid: bool, p: Parsed, d: Delegates): Outcome {
    if digestValid then Render(if p.wrapper.Some? then d.pdpResponse else None) else Forbidden
  }

  /** Where `doGet` goes once the request is admitted and its check ended in `c`. */
  function GetDecision(req: Request, c: CredentialCheck, d: Delegates): Outcome {
    if req.contentLength == 0 && HasHeader(req) then Challenge
    else GetAfterCheck(c, d)
  }

  function GetAfterCheck(c: CredentialCheck, d: Delegates): Outcome {
    match c
    case Faulted => Fault
    case Denied => Challenge
    case Passed(_) => Render(if d.home.Some? then d.home.value else None)
  }

  /** The outcome of `doPost`. */
  function PostOutcome(cfg: Config, req: Request, d: Delegates): Outcome {
    var ct := RequestContentType(cfg.maxContentLength, req, cfg.normalize);
    if ct.NONE? then Refused
    else
      var p := ParsedRequest(cfg, ct, req);
      PostDecision(req, p, PostCredentials(cfg, req, p), d)
  }

  /** The outcome of `doGet`. */
  function GetOutcome(cfg: Config, req: Request, d: Delegates): Outcome {
    var ct := RequestContentType(cfg.maxContentLength, req, cfg.normalize);
    if ct.NONE? then Refused
    else GetDecision(req, GetCredentials(cfg, req, ParsedRequest(cfg, ct, req)), d)
  }

  /** The response an outcome other than `Refused` leaves on an admitted request. */
  function Answer(r: Reply, o: Outcome, cfg: Config, realm: JString, ct: ContentType): Reply
    requires ct.Media?
  {
    match o
    case Challenge => UnauthorizedReply(r, cfg, realm, ct)
    case BadRequest => EmptyReply(r, ct, SC_BAD_REQUEST)
    case Forbidden => EmptyReply(r, ct, SC_FORBIDDEN)
    case Render(text) => RenderedReply(r, ct, text)
    case _ => r
  }

  /** The response an outcome leaves, from the response `r` the handler was given. */
  function Respond(r: Reply, o: Outcome, cfg: Config, req: Request): Reply {
    var ct := RequestContentType(cfg.maxContentLength, req, cfg.normalize);
    var admitted := AdmissionReply(r, cfg.maxContentLength, req, cfg.normalize);
    if o.Refused? || ct.NONE? then admitted.(encoding := Some(UTF8), length := Some(0))
    else Answer(admitted, o, cfg, req.realm, ct)
  }

  /** `parseRequestInformation`: a fresh request information holding the body, parsed by its content type. */
  method ParseRequestInformation(cfg: Config, ct: ContentType, req: Request) returns (info: RequestInformation)
    requires ct.Media?
    ensures fresh(info)
    ensures info.contentType == ct && info.realm == req.realm && info.authenticationHeader == req.authorization
    ensures info.originalContent == req.body && info.ParseState() == ParsedRequest(cfg, ct, req)
    ensures !info.digestValid && !info.authenticated && info.xacmlStringResponse == None
  {
    info := new RequestInformation(ct, req.realm, req.authorization);
    info.originalContent := req.body;
    if ct.commonType == XML {
      ParseXmlRequest(info, cfg.xmlHeader, cfg.parse);
    }
  }

  /** `doPost`; `faulted` reports the exception thrown when `auth-int` meets a missing body. */
  method DoPost(cfg: Config, req: Request, d: Delegates, response: Response) returns (faulted: bool)
    modifies response
    ensures response.Snapshot() == Respond(old(response.Snapshot()), PostOutcome(cfg, req, d), cfg, req)
    ensures faulted <==> PostOutcome(cfg, req, d).Fault?
  {
    var ct := PreProcessingRequest(cfg, req, response);
    if ct == NONE {
      response.SetCharacterEncoding(UTF8);
      response.SetContentLength(0);
      return false;
    }
    var info := ParseRequestInformation(cfg, ct, req);
    ghost var c;
    faulted, c := HandlePost(cfg, req, d, ct, info, response);
  }

  /** The part of `doPost` after the request information is parsed; `c` is how its check ends. */
  method HandlePost(cfg: Config, req: Request, d: Delegates, ct: ContentType, info: RequestInformation,
                    response: Response) returns (faulted: bool, ghost c: CredentialCheck)
    requires ct.Media? && info.realm == req.realm && info.authenticationHeader == req.authorization
    requires info.originalContent == req.body && !info.digestValid && !info.authenticated
    requires info.xacmlStringResponse == None
    modifies info, response
    ensures c == PostCredentials(cfg, req, old(info.ParseState()))
    ensures response.Snapshot() ==
      Answer(old(response.Snapshot()), PostDecision(req, old(info.ParseState()), c, d), cfg, req.realm, ct)
    ensures faulted <==> PostDecision(req, old(info.ParseState()), c, d).Fault?
    ensures info.ParseState() == old(info.ParseState())
    ensures info.authenticated <==> PostDecision(req, old(info.ParseState()), c, d).Render?
  {
    c := PostCredentials(cfg, req, info.ParseState());
    var header := info.authenticationHeader;
    if req.contentLength == 0 && header.Some? && header.value != "" {
      RenderUnAuthorized(cfg, info.realm, ct, response);
      return false, c;
    }
    if info.requestNodePresent {
      RenderEmpty(ct, SC_BAD_REQUEST, response);
      return false, c;
    }
    ghost var p := info.ParseState();
    faulted, c := AuthenticatePost(cfg, req, d, ct, info, response);
    AfterCheckRenders(c, p, d);
  }

  /** Past the length-0 rule and the `Request` node, `doPost` renders exactly on a passed Digest. */
  lemma AfterCheckRenders(c: CredentialCheck, p: Parsed, d: Delegates)
    ensures PostAfterCheck(c, p, d).Render? <==> c == Passed(true)
  {
  }

  /** The Digest or wrapper check of `doPost`, and what follows it. */
  method AuthenticatePost(cfg: Config, req: Request, d: Delegates, ct: ContentType, info: RequestInformation,
                          response: Response) returns (faulted: bool, ghost c: CredentialCheck)
    requires ct.Media? && info.realm == req.realm && info.authenticationHeader == req.authorization
    requires info.originalContent == req.body && !info.digestValid && !info.authenticated
    requires info.xacmlStringResponse == None
    modifies info, response
    ensures c == PostCredentials(cfg, req, old(info.ParseState()))
    ensures response.Snapshot() ==
      Answer(old(response.Snapshot()), PostAfterCheck(c, old(info.ParseState()), d), cfg, req.realm, ct)
    ensures faulted <==> PostAfterCheck(c, old(info.ParseState()), d).Fault?
    ensures info.ParseState() == old(info.ParseState())
    ensures info.digestValid == info.authenticated == (c == Passed(true))
    ensures info.xacmlStringResponse ==
      (if c.Passed? && old(info.authenticationContent).Some? then d.pdpResponse else None)
  {
    var header := info.authenticationHeader;
    var digestHeader := header.Some? && StartsWith(header.value, cfg.digestScheme);
    assert digestHeader == PostDigestHeader(cfg, req);
    var proceed;
    ghost var p := info.ParseState();
    faulted, proceed, c := CheckCredentials(cfg, req, ct, info, digestHeader, response);
    if faulted || !proceed {
      return;
    }
    assert PostAfterCheck(c, p, d) == PdpOutcome(info.digestValid, info.ParseState(), d);
    FinishPost(cfg, req, d, ct, info, response);
  }

  /** The end of `doPost`: `authenticated` follows `digestValid`, the PDP answers a wrapped request, and 403 or the render. */
  method FinishPost(cfg: Config, req: Request, d: Delegates, ct: ContentType, info: RequestInformation,
                    response: Response)
    requires ct.Media? && !info.authenticated && info.xacmlStringResponse == None
    modifies info, response
    ensures response.Snapshot() ==
      Answer(old(response.Snapshot()), PdpOutcome(old(info.digestValid), old(info.ParseState()), d), cfg, req.realm, ct)
    ensures info.ParseState() == old(info.ParseState()) && info.digestValid == old(info.digestValid)
    ensures info.authenticated == old(info.digestValid)
    ensures info.xacmlStringResponse ==
      (if old(info.authenticationContent).Some? then d.pdpResponse else old(info.xacmlStringResponse))
  {
    if info.digestValid {
      info.authenticated := true;
    }
    if info.authenticationContent.Some? {
      // processPDP_XMLRequest / processPDP_JSONRequest leave their answer here.
      info.xacmlStringResponse := d.pdpResponse;
    }
    if !info.authenticated {
      RenderEmpty(ct, SC_FORBIDDEN, response);
      return;
    }
    RenderResponse(ct, info.xacmlStringResponse, response);
  }

  /**
   * The Digest or wrapper check both handlers make: with a Digest header,
   * `preAuthenticateUsingDigest` decides; without one, a body with no wrapper
   * is challenged. `c` is how the check ends.
   */
  method CheckCredentials(cfg: Config, req: Request, ct: ContentType, info: RequestInformation,
                          digestHeader: bool, response: Response)
    returns (faulted: bool, proceed: bool, ghost c: CredentialCheck)
    requires ct.Media? && info.realm == req.realm && info.authenticationHeader == req.authorization
    requires info.originalContent == req.body && !info.digestValid
    requires digestHeader ==> req.authorization.Some?
    modifies info, response
    ensures c == CredentialsOf(cfg, req, old(info.ParseState()), digestHeader)
    ensures (faulted <==> c.Faulted?) && (proceed <==> c.Passed?)
    ensures info.digestValid == (c.Passed? && c.digestValid)
    ensures response.Snapshot() ==
      (if c.Denied? then UnauthorizedReply(old(response.Snapshot()), cfg, req.realm, ct) else old(response.Snapshot()))
    ensures info.ParseState() == old(info.ParseState()) && info.authenticated == old(info.authenticated)
    ensures info.xacmlStringResponse == old(info.xacmlStringResponse)
  {
    c := CredentialsOf(cfg, req, info.ParseState(), digestHeader);
    faulted, proceed := false, false;
    if digestHeader {
      var digest := PreAuthenticateUsingDigest(req.authorization.value, req.verb, info.originalContent, info.realm,
                                               cfg.nonce, cfg.username, cfg.md5);
      assert digest == DigestOf(cfg, req);
      if digest.BodyMissing? {
        assert c == Faulted;
        faulted := true;
        return;
      }
      if digest.Rejected? {
        assert c == Denied;
        RenderUnAuthorized(cfg, info.realm, ct, response);
        return;
      }
      assert c == Passed(true);
      info.digestValid := true;
    } else if info.authenticationContent.None? {
      RenderUnAuthorized(cfg, info.realm, ct, response);
      return;
    }
    proceed := true;
  }

  /** `doGet`; `faulted` reports the exception thrown when `auth-int` meets a missing body. */
  method DoGet(cfg: Config, req: Request, d: Delegates, response: Response) returns (faulted: bool)
    modifies response
    ensures response.Snapshot() == Respond(old(response.Snapshot()), GetOutcome(cfg, req, d), cfg, req)
    ensures faulted <==> GetOutcome(cfg, req, d).Fault?
  {
    var ct := PreProcessingRequest(cfg, req, response);
    if ct == NONE {
      response.SetCharacterEncoding(UTF8);
      response.SetContentLength(0);
      return false;
    }
    var info := ParseRequestInformation(cfg, ct, req);
    ghost var c;
    faulted, c := HandleGet(cfg, req, d, ct, info, response);
  }

  /** The part of `doGet` after the request information is parsed; `c` is how its check ends. */
  method HandleGet(cfg: Config, req: Request, d: Delegates, ct: ContentType, info: RequestInformation,
                   response: Response) returns (faulted: bool, ghost c: CredentialCheck)
    requires ct.Media? && info.realm == req.realm && info.authenticationHeader == req.authorization
    requires info.originalContent == req.body && !info.digestValid && info.xacmlStringResponse == None
    modifies info, response
    ensures c == GetCredentials(cfg, req, old(info.ParseState()))
    ensures response.Snapshot() == Answer(old(response.Snapshot()), GetDecision(req, c, d), cfg, req.realm, ct)
    ensures faulted <==> GetDecision(req, c, d).Fault?
    ensures info.ParseState() == old(info.ParseState())
    ensures info.digestValid == (GetDecision(req, c, d).Render? && c.Passed? && c.digestValid)
    ensures info.authenticated == old(info.authenticated) && info.xacmlStringResponse == old(info.xacmlStringResponse)
  {
    c := GetCredentials(cfg, req, info.ParseState());
    var header := info.authenticationHeader;
    if req.contentLength == 0 && header.Some? && header.value != "" {
      RenderUnAuthorized(cfg, info.realm, ct, response);
      return false, c;
    }
    faulted, c := AuthenticateGet(cfg, req, d, ct, info, response);
  }

  /** The Digest or wrapper check of `doGet`, and the home render that follows it. */
  method AuthenticateGet(cfg: Config, req: Request, d: Delegates, ct: ContentType, info: RequestInformation,
                         response: Response) returns (faulted: bool, ghost c: CredentialCheck)
    requires ct.Media? && info.realm == req.realm && info.authenticationHeader == req.authorization
    requires info.originalContent == req.body && !info.digestValid && info.xacmlStringResponse == None
    modifies info, response
    ensures c == GetCredentials(cfg, req, old(info.ParseState()))
    ensures response.Snapshot() == Answer(old(response.Snapshot()), GetAfterCheck(c, d), cfg, req.realm, ct)
    ensures faulted <==> GetAfterCheck(c, d).Fault?
    ensures info.ParseState() == old(info.ParseState())
    ensures info.digestValid == (c.Passed? && c.digestValid)
    ensures info.authenticated == old(info.authenticated) && info.xacmlStringResponse == old(info.xacmlStringResponse)
  {
    ghost var r0 := response.Snapshot();
    var header := info.authenticationHeader;
    var digestHeader := header.Some? && header.value != "" && StartsWith(header.value, cfg.digestScheme);
    assert digestHeader == GetDigestHeader(cfg, req);
    var proceed;
    faulted, proceed, c := CheckCredentials(cfg, req, ct, info, digestHeader, response);
    if !faulted && proceed {
      assert response.Snapshot() == r0;
      RenderHome(ct, d, info.xacmlStringResponse, response);
    }
    GetAfterCheckAnswer(r0, response.Snapshot(), c, d, cfg, req.realm, ct);
  }

  /** The response after the check of `doGet` and its home render, whichever way the check ended. */
  lemma GetAfterCheckAnswer(r0: Reply, r1: Reply, c: CredentialCheck, d: Delegates, cfg: Config, realm: JString,
                            ct: ContentType)
    requires ct.Media?
    requires c.Faulted? ==> r1 == r0
    requires c.Denied? ==> r1 == UnauthorizedReply(r0, cfg, realm, ct)
    requires c.Passed? ==> r1 == RenderedReply(r0, ct, if d.home.Some? then d.home.value else None)
    ensures r1 == Answer(r0, GetAfterCheck(c, d), cfg, realm, ct)
  {
  }

  /** The end of `doGet`: the home document if the resource produced one, else the stored response. */
  method RenderHome(ct: ContentType, d: Delegates, stored: JString, response: Response)
    requires ct.Media? && stored == None
    modifies response
    ensures response.Snapshot() ==
      RenderedReply(old(response.Snapshot()), ct, if d.home.Some? then d.home.value else None)
  {
    if d.home.Some? {
      RenderResponse(ct, d.home.value, response);
      return;
    }
    RenderResponse(ct, stored, response);
  }

  // ---------------------------------------------------------------------------
  // What the handlers promise

  /** The request passes `preProcessingRequest`. */
  predicate Admitted(cfg: Config, req: Request) {
    RequestContentType(cfg.maxContentLength, req, cfg.normalize).Media?
  }

  /** The request information of an admitted request. */
  function ParsedFor(cfg: Config, req: Request): Parsed
    requires Admitted(cfg, req)
  {
    ParsedRequest(cfg, RequestContentType(cfg.maxContentLength, req, cfg.normalize), req)
  }

  /** A request that fails admission is refused by both handlers with the admission status, no body and length 0. */
  lemma RefusedByAdmission(cfg: Config, req: Request, d: Delegates, r: Reply)
    requires !Admitted(cfg, req)
    ensures PostOutcome(cfg, req, d) == Refused && GetOutcome(cfg, req, d) == Refused
    ensures var after := Respond(r, Refused, cfg, req);
      after.length == Some(0) && after.encoding == Some(UTF8) && after.body == r.body &&
      after.headers == r.headers &&
      after.status == (if cfg.maxContentLength != 0 && req.contentLength < 0 then SC_LENGTH_REQUIRED
                       else if cfg.maxContentLength != 0 && req.contentLength > cfg.maxContentLength then SC_REQUEST_ENTITY_TOO_LARGE
                       else if req.contentType.None? || cfg.normalize(req.contentType.value).None? then SC_UNSUPPORTED_MEDIA_TYPE
                       else r.status)
  {
  }

  /** An admitted request goes where the decisions send it on its request information and its check. */
  lemma Dispatch(cfg: Config, req: Request, d: Delegates)
    requires Admitted(cfg, req)
    ensures var p := ParsedFor(cfg, req);
      PostOutcome(cfg, req, d) == PostDecision(req, p, PostCredentials(cfg, req, p), d) &&
      GetOutcome(cfg, req, d) == GetDecision(req, GetCredentials(cfg, req, p), d)
  {
  }

  /**
   * `doPost` challenges with 401 exactly when the request has length 0 and
   * a header, or, carrying no `Request` node, is denied by the check.
   */
  lemma PostChallenges(req: Request, p: Parsed, c: CredentialCheck, d: Delegates)
    ensures PostDecision(req, p, c, d) == Challenge <==>
      (req.contentLength == 0 && HasHeader(req)) || (!p.requestNodePresent && c.Denied?)
  {
  }

  /** `doPost` answers 400 exactly when the check is reached with a `Request` node present. */
  lemma PostBadRequest(req: Request, p: Parsed, c: CredentialCheck, d: Delegates)
    ensures PostDecision(req, p, c, d) == BadRequest <==>
      !(req.contentLength == 0 && HasHeader(req)) && p.requestNodePresent
  {
  }

  /** `doPost` answers 403 exactly when the check let a request through without a valid Digest. */
  lemma PostForbids(req: Request, p: Parsed, c: CredentialCheck, d: Delegates)
    ensures PostDecision(req, p, c, d) == Forbidden <==>
      !(req.contentLength == 0 && HasHeader(req)) && !p.requestNodePresent && c == Passed(false)
  {
  }

  /**
   * Only a request whose Digest check passed reaches the final render of
   * `doPost`, and then with the PDP's answer when the body had a wrapper.
   */
  lemma PostRendersAuthenticated(req: Request, p: Parsed, c: CredentialCheck, d: Delegates)
    ensures PostDecision(req, p, c, d).Render? <==>
      !(req.contentLength == 0 && HasHeader(req)) && !p.requestNodePresent && c == Passed(true)
    ensures PostDecision(req, p, c, d).Render? ==>
      PostDecision(req, p, c, d).text == (if p.wrapper.Some? then d.pdpResponse else None)
  {
  }

  /** `doPost` faults exactly when the check is reached and faults. */
  lemma PostFaults(req: Request, p: Parsed, c: CredentialCheck, d: Delegates)
    ensures PostDecision(req, p, c, d).Fault? <==>
      !(req.contentLength == 0 && HasHeader(req)) && !p.requestNodePresent && c.Faulted?
  {
  }

  /** `doGet` renders the home document whenever its check passes, authenticated or not. */
  lemma GetRenders(req: Request, c: CredentialCheck, d: Delegates)
    ensures GetDecision(req, c, d).Render? <==> !(req.contentLength == 0 && HasHeader(req)) && c.Passed?
    ensures GetDecision(req, c, d).Render? ==>
      GetDecision(req, c, d).text == (if d.home.Some? then d.home.value else None)
  {
  }

  /** `doGet` never answers 400 or 403: what it does not render or fault on, it challenges. */
  lemma GetChallenges(req: Request, c: CredentialCheck, d: Delegates)
    ensures var o := GetDecision(req, c, d);
      o.Challenge? || o.Render? || o.Fault?
    ensures GetDecision(req, c, d).Fault? <==> !(req.contentLength == 0 && HasHeader(req)) && c.Faulted?
  {
  }

  /** The response an admitted request gets for each outcome. */
  lemma AnswerShape(r: Reply, o: Outcome, cfg: Config, req: Request)
    requires Admitted(cfg, req) && !o.Refused?
    ensures var after := Respond(r, o, cfg, req);
      (o.Challenge? ==>
        after.status == SC_UNAUTHORIZED && after.body == r.body && after.length == Some(0) &&
        after.headers == r.headers + [(cfg.wwwAuthenticateHeader,
          AuthenticateHeader(req.realm, cfg.authenticationMethod, cfg.nonce, cfg.md5))]) &&
      (o.BadRequest? ==>
        after.status == SC_BAD_REQUEST && after.body == r.body && after.length == Some(0) && after.headers == r.headers) &&
      (o.Forbidden? ==>
        after.status == SC_FORBIDDEN && after.body == r.body && after.length == Some(0) && after.headers == r.headers) &&
      (o.Render? ==> after.status == r.status && after.headers == r.headers) &&
      (o.Fault? ==> after == r)
  {
  }

  /**
   * The handler itself writes nothing to the body of a `doPost` response
   * unless its Digest check passed. The PDP code a wrapped request is handed
   * to also receives the response; the model lets it only leave an answer in
   * the request information, so its own writes are not covered here.
   */
  lemma PostBodyNeedsDigest(cfg: Config, req: Request, d: Delegates, r: Reply)
    requires Respond(r, PostOutcome(cfg, req, d), cfg, req).body != r.body
    ensures Admitted(cfg, req) && PostDigestHeader(cfg, req) && DigestOf(cfg, req).Accepted?
  {
    if Admitted(cfg, req) {
      var p := ParsedFor(cfg, req);
      Dispatch(cfg, req, d);
      PostRendersAuthenticated(req, p, PostCredentials(cfg, req, p), d);
      CredentialsCases(cfg, req, p, PostDigestHeader(cfg, req));
    } else {
      RefusedByAdmission(cfg, req, d, r);
    }
  }

  /**
   * `doGet` renders the home document for a request with no Digest header
   * whenever its body carries a wrapper: nothing about the wrapper is checked.
   */
  lemma GetWrapperWithoutDigest(cfg: Config, req: Request, d: Delegates)
    requires Admitted(cfg, req) && !(req.contentLength == 0 && HasHeader(req))
    requires !GetDigestHeader(cfg, req) && ParsedFor(cfg, req).wrapper.Some?
    ensures GetOutcome(cfg, req, d) == Render(if d.home.Some? then d.home.value else None)
  {
    var p := ParsedFor(cfg, req);
    Dispatch(cfg, req, d);
    assert GetCredentials(cfg, req, p) == Passed(false);
    GetRenders(req, Passed(false), d);
  }

  /**
   * End to end: a POST whose Authorization header an RFC 2617 client wrote
   * with the server's user, password, realm and nonce is rendered exactly
   * when its `response` is that client's request-digest, and challenged
   * otherwise.
   */
  lemma PostFromClient(cfg: Config, req: Request, d: Delegates, c: Credentials, response: string)
    requires Admitted(cfg, req) && req.contentLength != 0 && !ParsedFor(cfg, req).requestNodePresent
    requires cfg.digestScheme == "Digest"
    requires req.authorization == Some(FormatHeader("Digest", ClientParams(c, response)))
    requires CleanCredentials(c) && CleanValue(response)
    requires c.username == cfg.username && c.password == Password && c.realm == Str(req.realm)
    requires c.nonce == cfg.nonce && c.verb == req.verb
    requires c.qop == Some("auth-int") ==> req.body == Some(c.body)
    ensures PostOutcome(cfg, req, d) ==
      if response == RequestDigest(c, cfg.md5) then Render(if ParsedFor(cfg, req).wrapper.Some? then d.pdpResponse else None)
      else Challenge
  {
    var p := ParsedFor(cfg, req);
    ClientDigest(cfg, req, c, response);
    CredentialsCases(cfg, req, p, true);
    var check := PostCredentials(cfg, req, p);
    assert check == if response == RequestDigest(c, cfg.md5) then Passed(true) else Denied;
    Dispatch(cfg, req, d);
  }

  /**
   * `doPost` with the request information's header left unset, as
   * `parseRequestInformation` leaves it: every check runs as if the request
   * carried no header, and no POST is ever rendered or faults.
   */
  function PostOutcomeHeaderUnset(cfg: Config, req: Request, d: Delegates): (o: Outcome)
    ensures !o.Render? && !o.Fault?
  {
    PostOutcome(cfg, req.(authorization := None), d)
  }

  /**
   * The POST `PostFromClient` renders, with a correct request-digest, is
   * challenged or answered 403 once the header is left unset.
   */
  lemma HeaderUnsetTurnsClientAway(cfg: Config, req: Request, d: Delegates, c: Credentials, response: string)
    requires Admitted(cfg, req) && req.contentLength != 0 && !ParsedFor(cfg, req).requestNodePresent
    requires cfg.digestScheme == "Digest"
    requires req.authorization == Some(FormatHeader("Digest", ClientParams(c, response)))
    requires CleanCredentials(c) && CleanValue(response)
    requires c.username == cfg.username && c.password == Password && c.realm == Str(req.realm)
    requires c.nonce == cfg.nonce && c.verb == req.verb
    requires c.qop == Some("auth-int") ==> req.body == Some(c.body)
    requires response == RequestDigest(c, cfg.md5)
    ensures PostOutcome(cfg, req, d).Render?
    ensures PostOutcomeHeaderUnset(cfg, req, d) == if ParsedFor(cfg, req).wrapper.Some? then Forbidden else Challenge
  {
    PostFromClient(cfg, req, d, c, response);
    HeaderUnsetOutcome(cfg, req, d);
  }

  /** With the header unset, a non-empty POST with no `Request` node is challenged without a wrapper, 403 with one. */
  lemma HeaderUnsetOutcome(cfg: Config, req: Request, d: Delegates)
    requires Admitted(cfg, req) && req.contentLength != 0 && !ParsedFor(cfg, req).requestNodePresent
    ensures PostOutcomeHeaderUnset(cfg, req, d) == if ParsedFor(cfg, req).wrapper.Some? then Forbidden else Challenge
  {
    var bare := req.(authorization := None);
    assert Admitted(cfg, bare) && ParsedFor(cfg, bare) == ParsedFor(cfg, req);
    Dispatch(cfg, bare, d);
  }

  /** The Digest check of a header a client wrote: a pass or a challenge, by its `response`. */
  lemma ClientDigest(cfg: Config, req: Request, c: Credentials, response: string)
    requires cfg.digestScheme == "Digest"
    requires req.authorization == Some(FormatHeader("Digest", ClientParams(c, response)))
    requires CleanCredentials(c) && CleanValue(response)
    requires c.username == cfg.username && c.password == Password && c.realm == Str(req.realm)
    requires c.nonce == cfg.nonce && c.verb == req.verb
    requires c.qop == Some("auth-int") ==> req.body == Some(c.body)
    ensures PostDigestHeader(cfg, req)
    ensures DigestOf(cfg, req).Accepted? <==> response == RequestDigest(c, cfg.md5)
    ensures DigestOf(cfg, req).Accepted? || DigestOf(cfg, req).Rejected?
  {
    SchemePrefix("Digest", JoinWith(ParamTexts(ClientParams(c, response)), ','));
    ClientAccepted(c, response, req.body, req.realm, cfg.nonce, cfg.username, cfg.md5);
  }

  lemma SchemePrefix(scheme: string, rest: string)
    ensures StartsWith(scheme + " " + rest, scheme)
  {
    assert (scheme + " " + rest)[..|scheme|] == scheme;
  }
}

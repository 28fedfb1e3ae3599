# XACML content handler and IPv6 validator

This project models two pieces of OpenAM in Dafny.

**The XACML 3.0 REST front end, `XacmlContentHandlerService`.** This servlet sits in front of the XACML policy decision point (PDP). Every GET and POST goes through the same steps:

- **Admission** (`preProcessingRequest`). The declared content length is checked against the configured limit, then the media type.
- **Parsing** (`parseRequestInformation` and `parseXMLRequest`). The servlet looks for an `XACMLAuthzDecisionQuery` wrapper and copies its attributes. Wrapped requests must carry ID, IssueInstant and Version (`isRequiredFieldPresent`). It then looks for a `Request` root.
- **Digest check** (RFC 2617). The challenge is built by `generateAuthenticateHeader` and `getOpaque`. The client's `Authorization` header is checked by `preAuthenticateUsingDigest`.
- **Response.** The request ends in one of:
  - 401 with a challenge (`renderUnAuthorized`);
  - 400 (`renderBadRequest`);
  - 403;
  - the home document or the PDP's answer, written by `renderResponse`.

**The IPv6 text-form validator `ValidateIPaddress.isIPv6`.** Its behaviour is pinned down by the table of addresses in `ValidateIPAddressTest`. `ValidateIPaddress.java` itself is not part of this model.
- The validator is modelled as a left-to-right scanner, `IPv6.IsIPv6`.
- It is proved equal to the grammar of the text forms in section 2.2 of RFC 4291 (`IPv6.Characterization`).
- Every row of the test table is proved as the verdict the scanner gives (`IPv6Vectors.Lines*`).

## Modules and files

| file | module | contents |
|---|---|---|
| `java_text.dfy` | `JavaText` | Java's nullable `String` (`Option<string>`), `trim`, `isBlank`, `indexOf`, `replaceAll` of one character, `split` of one character |
| `http.dfy` | `Http` | content types, status codes, and the response object as a class whose methods set status, headers, encoding, length and body |
| `digest.dfy` | `Digest` | the challenge header, the parse of the `Authorization` header into a map, the response check, and RFC 2617's request-digest |
| `xacml_request.dfy` | `XacmlRequest` | `XACMLRequestInformation` as a class; `parseXMLRequest` over an abstract document |
| `xacml_service.dfy` | `XacmlService` | admission, rendering, `doGet` and `doPost`; the handlers as methods on a `Response`, proved to end in the state a pure decision function gives |
| `ipv6.dfy` | `IPv6` | the scanner, the RFC 4291 text forms, and the proof that they agree |
| `ipv6_properties.dfy` | `IPv6Properties` | the shapes every accepted address has (alphabet, group length, one "::", colons at the ends, the place of an IPv4 tail, piece counts) |
| `ipv6_vectors.dfy` | `IPv6Vectors` | the verdicts of the test table, block by block |

Outside code is a parameter of the configuration (`XacmlService.Config`):
- `DigestUtils.md5Hex` is `md5`, returning 32 lower-case hex digits;
- `ContentType.getNormalizedContentType` is `normalize`;
- the DOM parser is `parse`.

What the PDP and the home resource return is a parameter too (`XacmlService.Delegates`).

## Model

| member | source | states |
|---|---|---|
| XacmlService.PreProcessingRequest | openam/openam-xacml-resources/src/main/java/org/forgerock/identity/openam/xacml/v3/services/XacmlContentHandlerService.java:352-394 | returns the normalised content type, or NONE for a refused request; leaves the response as admission sets it (411 and UTF-8 for a negative length, 413 over the limit, 415 with length 0 for a missing or unknown type) |
| XacmlService.LengthRequired | openam/openam-xacml-resources/src/main/java/org/forgerock/identity/openam/xacml/v3/services/XacmlContentHandlerService.java:357-363 | with a non-zero limit, a negative declared length is refused with 411 before the media type is looked at |
| XacmlService.TooLarge | openam/openam-xacml-resources/src/main/java/org/forgerock/identity/openam/xacml/v3/services/XacmlContentHandlerService.java:364-373 | a length over a non-zero limit is refused with 413 before the media type is looked at |
| XacmlService.NoLimit | openam/openam-xacml-resources/src/main/java/org/forgerock/identity/openam/xacml/v3/services/XacmlContentHandlerService.java:357 | with the limit at 0 the declared length does not affect the content type or the response |
| XacmlService.MediaTypeChecked | openam/openam-xacml-resources/src/main/java/org/forgerock/identity/openam/xacml/v3/services/XacmlContentHandlerService.java:377-393 | past the length checks: a missing or unrecognised type gives NONE and 415 with length 0; otherwise the normalised type comes back and the response is untouched |
| XacmlService.RenderResponse | openam/openam-xacml-resources/src/main/java/org/forgerock/identity/openam/xacml/v3/services/XacmlContentHandlerService.java:403-417 | sets the media type and UTF-8; writes the text with its length exactly when it is non-null and not blank after trimming, otherwise sets length 0 |
| XacmlService.RenderedWrites | openam/openam-xacml-resources/src/main/java/org/forgerock/identity/openam/xacml/v3/services/XacmlContentHandlerService.java:403-417 | rendering keeps the status and headers, sets type and encoding, and writes the whole text with its length exactly when it is not blank (both directions) |
| XacmlService.BlankNotWritten | openam/openam-xacml-resources/src/main/java/org/forgerock/identity/openam/xacml/v3/services/XacmlContentHandlerService.java:407 | a text of only characters `trim` removes writes nothing |
| XacmlService.RenderUnAuthorized | openam/openam-xacml-resources/src/main/java/org/forgerock/identity/openam/xacml/v3/services/XacmlContentHandlerService.java:425-433 | adds the challenge header, then UTF-8, length 0, status 401, and an empty render |
| XacmlService.UnauthorizedShape | openam/openam-xacml-resources/src/main/java/org/forgerock/identity/openam/xacml/v3/services/XacmlContentHandlerService.java:425-433 | a 401 response has the challenge appended to the earlier headers, length 0 and no body written |
| XacmlService.RenderEmpty | openam/openam-xacml-resources/src/main/java/org/forgerock/identity/openam/xacml/v3/services/XacmlContentHandlerService.java:441-447 | `renderBadRequest` (and the 403 branch of `doPost`): UTF-8, length 0, the status, and an empty render |
| XacmlService.ParseRequestInformation | openam/openam-xacml-resources/src/main/java/org/forgerock/identity/openam/xacml/v3/services/XacmlContentHandlerService.java:943-977 | a fresh request information holding the body and the realm, with its header taken to be the request's `Authorization` header (see "Left out"); an XML body is parsed by `parseXMLRequest`; a JSON body is left unparsed |
| XacmlService.CredentialsCases | openam/openam-xacml-resources/src/main/java/org/forgerock/identity/openam/xacml/v3/services/XacmlContentHandlerService.java:703-726 | with a Digest header, the check faults, denies or passes exactly as the Digest check reports a missing body, a rejection or acceptance; without one, it denies exactly when there is no wrapper |
| XacmlService.DoPost | openam/openam-xacml-resources/src/main/java/org/forgerock/identity/openam/xacml/v3/services/XacmlContentHandlerService.java:668-923 | the response after `doPost` is the one its decision (`PostOutcome`) leaves, and it reports a fault exactly when the decision is the exception of a missing body |
| XacmlService.HandlePost | openam/openam-xacml-resources/src/main/java/org/forgerock/identity/openam/xacml/v3/services/XacmlContentHandlerService.java:685-700 | after parsing: 401 for length 0 with a non-empty header, 400 when a `Request` root is present, otherwise the credential check and what follows it; the parse state is kept, and the request ends authenticated exactly when it is rendered |
| XacmlService.AuthenticatePost | openam/openam-xacml-resources/src/main/java/org/forgerock/identity/openam/xacml/v3/services/XacmlContentHandlerService.java:703-726 | `doPost` treats any header starting with the Digest scheme as Digest; the check's outcome decides the response; the parse state is kept, `digestValid` and `authenticated` both hold exactly on a passed Digest, and the PDP's answer is stored exactly when the check passed a wrapped request |
| XacmlService.FinishPost | openam/openam-xacml-resources/src/main/java/org/forgerock/identity/openam/xacml/v3/services/XacmlContentHandlerService.java:729-922 | `authenticated` becomes `digestValid`; a wrapped request stores the PDP's answer, any other keeps its stored response; the parse state is kept; an unauthenticated request gets 403, otherwise the stored answer is rendered |
| XacmlService.CheckCredentials | openam/openam-xacml-resources/src/main/java/org/forgerock/identity/openam/xacml/v3/services/XacmlContentHandlerService.java:493-519 | the Digest-or-wrapper check shared by both handlers: sets `digestValid` exactly on acceptance, sends the 401 exactly on denial, and leaves the parse state unchanged |
| XacmlService.DoGet | openam/openam-xacml-resources/src/main/java/org/forgerock/identity/openam/xacml/v3/services/XacmlContentHandlerService.java:468-550 | the response after `doGet` is the one its decision (`GetOutcome`) leaves, and it reports a fault exactly when the decision is the exception of a missing body |
| XacmlService.HandleGet | openam/openam-xacml-resources/src/main/java/org/forgerock/identity/openam/xacml/v3/services/XacmlContentHandlerService.java:482-655 | after parsing: 401 for length 0 with a non-empty header; the check (Digest only for a non-empty header); then the home document is rendered; the parse state, `authenticated` and the stored response are kept, and `digestValid` holds exactly when the request is rendered after a passed Digest |
| XacmlService.AuthenticateGet | openam/openam-xacml-resources/src/main/java/org/forgerock/identity/openam/xacml/v3/services/XacmlContentHandlerService.java:491-655 | `doGet` takes a non-empty header starting with the Digest scheme for Digest; a fault writes nothing, a denial gets the 401 challenge, a pass renders the home document; `digestValid` is set exactly on a passed Digest (line 505) before the same object reaches `getHome`; the parse state, `authenticated` and the stored response are kept |
| XacmlService.RenderHome | openam/openam-xacml-resources/src/main/java/org/forgerock/identity/openam/xacml/v3/services/XacmlContentHandlerService.java:538-655 | the home document is rendered when the resource produced one; when it threw a JSON exception, the stored response (still null) is rendered instead |
| XacmlService.RefusedByAdmission | openam/openam-xacml-resources/src/main/java/org/forgerock/identity/openam/xacml/v3/services/XacmlContentHandlerService.java:472-479 | a request that fails admission is refused by both handlers with the admission status, UTF-8, length 0, and nothing written |
| XacmlService.Dispatch | openam/openam-xacml-resources/src/main/java/org/forgerock/identity/openam/xacml/v3/services/XacmlContentHandlerService.java:482-485 | an admitted request is decided on the request information parsed from it and on the check that follows |
| XacmlService.PostChallenges | openam/openam-xacml-resources/src/main/java/org/forgerock/identity/openam/xacml/v3/services/XacmlContentHandlerService.java:688-726 | `doPost` answers 401 exactly when the length is 0 with a header, or when, with no `Request` root, the check denies |
| XacmlService.PostBadRequest | openam/openam-xacml-resources/src/main/java/org/forgerock/identity/openam/xacml/v3/services/XacmlContentHandlerService.java:696-700 | `doPost` answers 400 exactly when the length-0 challenge does not apply and a `Request` root is present |
| XacmlService.PostForbids | openam/openam-xacml-resources/src/main/java/org/forgerock/identity/openam/xacml/v3/services/XacmlContentHandlerService.java:760-768 | `doPost` answers 403 exactly when the check lets the request through with no valid Digest (a wrapper without Digest) |
| XacmlService.PostRendersAuthenticated | openam/openam-xacml-resources/src/main/java/org/forgerock/identity/openam/xacml/v3/services/XacmlContentHandlerService.java:729-922 | `doPost` renders exactly when the Digest check passed, and it renders the PDP's answer when there was a wrapper and nothing otherwise |
| XacmlService.PostFaults | openam/openam-xacml-resources/src/main/java/org/forgerock/identity/openam/xacml/v3/services/XacmlContentHandlerService.java:703-708 | `doPost` faults exactly when the check is reached and hashing a missing `auth-int` body throws |
| XacmlService.GetRenders | openam/openam-xacml-resources/src/main/java/org/forgerock/identity/openam/xacml/v3/services/XacmlContentHandlerService.java:522-546 | `doGet` renders the home document exactly when its check passes, authenticated or not |
| XacmlService.GetChallenges | openam/openam-xacml-resources/src/main/java/org/forgerock/identity/openam/xacml/v3/services/XacmlContentHandlerService.java:485-519 | `doGet` never answers 400 or 403: it challenges, renders or faults; it faults exactly when the check faults |
| XacmlService.AnswerShape | openam/openam-xacml-resources/src/main/java/org/forgerock/identity/openam/xacml/v3/services/XacmlContentHandlerService.java:403-447 | the response of each outcome: 401 with the challenge appended, 400 or 403 with length 0 and no body, a render that keeps status and headers, a fault that changes nothing |
| XacmlService.PostBodyNeedsDigest | openam/openam-xacml-resources/src/main/java/org/forgerock/identity/openam/xacml/v3/services/XacmlContentHandlerService.java:703-922 | if the handler's own writes reach the body of a `doPost` response, the request was admitted, carried a Digest header, and the Digest check accepted it; what the PDP code writes to the response it is handed is not covered (see "Left out") |
| XacmlService.GetWrapperWithoutDigest | openam/openam-xacml-resources/src/main/java/org/forgerock/identity/openam/xacml/v3/services/XacmlContentHandlerService.java:493-546 | `doGet` renders the home document for an admitted request with a wrapper and no Digest header, with nothing about the wrapper checked |
| XacmlService.PostFromClient | openam/openam-xacml-resources/src/main/java/org/forgerock/identity/openam/xacml/v3/services/XacmlContentHandlerService.java:703-922 | end to end: a POST with a header written by an RFC 2617 client using the server's user, password, realm and nonce is rendered exactly when its `response` is the client's request-digest, and is challenged otherwise |
| XacmlService.PostOutcomeHeaderUnset | openam/openam-xacml-resources/src/main/java/org/forgerock/identity/openam/xacml/v3/services/XacmlContentHandlerService.java:943-977 | `doPost` with the request information's header left unset, as the shown constructor call leaves it: no POST is ever rendered and none faults |
| XacmlService.HeaderUnsetTurnsClientAway | openam/openam-xacml-resources/src/main/java/org/forgerock/identity/openam/xacml/v3/services/XacmlContentHandlerService.java:956-957 | a POST with a correct client request-digest, which the model renders, is challenged (no wrapper) or answered 403 (wrapper) when the header is left unset |
| XacmlService.ClientDigest | openam/openam-xacml-resources/src/main/java/org/forgerock/identity/openam/xacml/v3/services/XacmlContentHandlerService.java:703-712 | such a header is taken for Digest and is accepted exactly when its `response` is the request-digest, and rejected otherwise |
| XacmlRequest.ParseXmlRequest | openam/openam-xacml-resources/src/main/java/org/forgerock/identity/openam/xacml/v3/services/XacmlContentHandlerService.java:1007-1115 | updates the document, wrapper, query and request-node flag as `ParseXml` gives them, and changes nothing else |
| XacmlRequest.SetAttributes | openam/openam-xacml-resources/src/main/java/org/forgerock/identity/openam/xacml/v3/services/XacmlContentHandlerService.java:1063-1070 | applies `setByName` to each wrapper attribute in document order, and changes nothing else |
| XacmlRequest.ApplyAttributesId | openam/openam-xacml-resources/src/main/java/org/forgerock/identity/openam/xacml/v3/services/XacmlContentHandlerService.java:1063-1070 | the last attribute named ID gives the query's id; with none the id is unchanged |
| XacmlRequest.LastNamed | openam/openam-xacml-resources/src/main/java/org/forgerock/identity/openam/xacml/v3/services/XacmlContentHandlerService.java:1063-1070 | the position of an attribute with the name, after which no attribute has that name |
| XacmlRequest.WithXmlHeader | openam/openam-xacml-resources/src/main/java/org/forgerock/identity/openam/xacml/v3/services/XacmlContentHandlerService.java:1026-1028 | content starting with "<?" is passed to the parser unchanged; any other content gets the XML declaration in front |
| XacmlRequest.WithXmlHeaderDeclares | openam/openam-xacml-resources/src/main/java/org/forgerock/identity/openam/xacml/v3/services/XacmlContentHandlerService.java:1026-1028 | if the header is itself a declaration, the parser's input always starts with one, and adding the header again changes nothing |
| XacmlRequest.EmptyContentIgnored | openam/openam-xacml-resources/src/main/java/org/forgerock/identity/openam/xacml/v3/services/XacmlContentHandlerService.java:1008-1011 | null or empty content leaves the request information as it was |
| XacmlRequest.RequestNodeReported | openam/openam-xacml-resources/src/main/java/org/forgerock/identity/openam/xacml/v3/services/XacmlContentHandlerService.java:1040-1108 | the request-node flag is set exactly when it already was, or the content parses with a `Request` root and any wrapper carries ID, IssueInstant and Version |
| XacmlRequest.MissingFieldStops | openam/openam-xacml-resources/src/main/java/org/forgerock/identity/openam/xacml/v3/services/XacmlContentHandlerService.java:1076-1083 | a wrapper missing a required field stops the parse: the wrapper is recorded and the request-node flag stays as it was |
| XacmlRequest.RequestInformation.constructor | openam/openam-xacml-resources/src/main/java/org/forgerock/identity/openam/xacml/v3/services/XacmlContentHandlerService.java:956-957 | a new request information with the content type and realm, an all-null query, and nothing parsed, valid or authenticated; the header it is given is an assumption (see "Left out") |
| Digest.AuthenticateHeader | openam/openam-xacml-resources/src/main/java/org/forgerock/identity/openam/xacml/v3/services/XacmlContentHandlerService.java:223-234 | the `WWW-Authenticate` value: realm, then qop only when it is not blank, then the md5 algorithm, nonce and opaque, in that order |
| Digest.Offered | openam/openam-xacml-resources/src/main/java/org/forgerock/identity/openam/xacml/v3/services/XacmlContentHandlerService.java:226-228 | the qop is offered exactly when the configured method is not blank, and it is offered as configured |
| Digest.ChallengeFormat | openam/openam-xacml-resources/src/main/java/org/forgerock/identity/openam/xacml/v3/services/XacmlContentHandlerService.java:223-234 | the challenge is the Digest scheme followed by its parameters, joined by commas |
| Digest.ChallengeValues | openam/openam-xacml-resources/src/main/java/org/forgerock/identity/openam/xacml/v3/services/XacmlContentHandlerService.java:223-234 | parsing the challenge with the server's own header parse gives back realm, qop (when offered), algorithm, nonce and opaque (round trip) |
| Digest.Opaque | openam/openam-xacml-resources/src/main/java/org/forgerock/identity/openam/xacml/v3/services/XacmlContentHandlerService.java:257-259 | the MD5 of the domain followed by the nonce, as 32 lower-case hex digits |
| Digest.WithoutScheme | openam/openam-xacml-resources/src/main/java/org/forgerock/identity/openam/xacml/v3/services/XacmlContentHandlerService.java:283-284 | the header after its first space, trimmed |
| Digest.SegmentEntry | openam/openam-xacml-resources/src/main/java/org/forgerock/identity/openam/xacml/v3/services/XacmlContentHandlerService.java:288-292 | a segment gives an entry exactly when it holds `=`; its key has no `=` and is trimmed; its value has no quote and is trimmed |
| Digest.ParseHeaderValues | openam/openam-xacml-resources/src/main/java/org/forgerock/identity/openam/xacml/v3/services/XacmlContentHandlerService.java:283-293 | the parse loop builds exactly the map `HeaderValues` gives |
| Digest.PutSegment | openam/openam-xacml-resources/src/main/java/org/forgerock/identity/openam/xacml/v3/services/XacmlContentHandlerService.java:288-292 | one step of the loop puts the segment's entry into the map, or leaves it alone when there is no `=` |
| Digest.HeaderValues | openam/openam-xacml-resources/src/main/java/org/forgerock/identity/openam/xacml/v3/services/XacmlContentHandlerService.java:283-293 | every stored key is trimmed and has no `=`; every value is trimmed and has no quote |
| Digest.CollectLastWins | openam/openam-xacml-resources/src/main/java/org/forgerock/identity/openam/xacml/v3/services/XacmlContentHandlerService.java:287-293 | a repeated key keeps the value of its last segment |
| Digest.CollectKeys | openam/openam-xacml-resources/src/main/java/org/forgerock/identity/openam/xacml/v3/services/XacmlContentHandlerService.java:287-293 | a key is in the map exactly when some segment holding `=` yields it |
| Digest.HeaderRoundTrip | openam/openam-xacml-resources/src/main/java/org/forgerock/identity/openam/xacml/v3/services/XacmlContentHandlerService.java:283-293 | parsing a header written from clean parameters (padded or not, quoted or not) gives the map those parameters denote |
| Digest.Get | openam/openam-xacml-resources/src/main/java/org/forgerock/identity/openam/xacml/v3/services/XacmlContentHandlerService.java:301-304 | `HashMap.get`: the stored value exactly when the key is present, and null otherwise |
| Digest.CheckDigest | openam/openam-xacml-resources/src/main/java/org/forgerock/identity/openam/xacml/v3/services/XacmlContentHandlerService.java:298-336 | throws exactly when qop is `auth-int` and the body is null; on acceptance there is a `response` field and the digest object holds the verb, HA1, qop, uri and realm |
| Digest.PreAuthenticateUsingDigest | openam/openam-xacml-resources/src/main/java/org/forgerock/identity/openam/xacml/v3/services/XacmlContentHandlerService.java:275-337 | computed step by step as the source does it, the result is the check `Authenticate` specifies |
| Digest.CheckDigestIsRfc2617 | openam/openam-xacml-resources/src/main/java/org/forgerock/identity/openam/xacml/v3/services/XacmlContentHandlerService.java:298-336 | unless hashing a null body throws, a header passes exactly when its `response` is the RFC 2617 request-digest of the server's user, fixed password, realm and nonce with the header's uri, qop, nc and cnonce |
| Digest.ClientValues | openam/openam-xacml-resources/src/main/java/org/forgerock/identity/openam/xacml/v3/services/XacmlContentHandlerService.java:283-330 | the server's parse of a client-written header recovers its uri, qop, response, nc and cnonce |
| Digest.ClientAccepted | openam/openam-xacml-resources/src/main/java/org/forgerock/identity/openam/xacml/v3/services/XacmlContentHandlerService.java:275-337 | end to end: a header written by an RFC 2617 client with the server's credentials is accepted, with the expected digest object, exactly when its `response` is that client's request-digest, and rejected otherwise |
| JavaText.Trim | openam/openam-xacml-resources/src/main/java/org/forgerock/identity/openam/xacml/v3/services/XacmlContentHandlerService.java:283-291 | `String.trim`: the result starts and ends with a character above the space, and is no longer than the input |
| JavaText.TrimPadded | openam/openam-xacml-resources/src/main/java/org/forgerock/identity/openam/xacml/v3/services/XacmlContentHandlerService.java:283-291 | trimming a trimmed text padded with removable characters gives it back |
| JavaText.IndexOf | openam/openam-xacml-resources/src/main/java/org/forgerock/identity/openam/xacml/v3/services/XacmlContentHandlerService.java:283-290 | `indexOf`: -1 exactly when the character is absent, otherwise its first position |
| JavaText.Remove | openam/openam-xacml-resources/src/main/java/org/forgerock/identity/openam/xacml/v3/services/XacmlContentHandlerService.java:291 | `replaceAll` of one character with nothing: the character does not occur in the result |
| JavaText.PiecesJoin | openam/openam-xacml-resources/src/main/java/org/forgerock/identity/openam/xacml/v3/services/XacmlContentHandlerService.java:286 | splitting on a character and joining back with it gives the text back |
| JavaText.SplitJoin | openam/openam-xacml-resources/src/main/java/org/forgerock/identity/openam/xacml/v3/services/XacmlContentHandlerService.java:286 | `split` of the join of pieces with no separator and a non-empty last piece gives the pieces back |
| IPv6.Characterization | openam-shared/src/test/java/org/forgerock/openam/utils/ValidateIPAddressTest.java:33-572 | the scanner accepts a string exactly when it is the text form (RFC 4291 section 2.2) of a well-formed address: eight pieces, or at most seven around one "::", with the last two optionally a dotted quad |
| IPv6.RenderAccepted | openam-shared/src/test/java/org/forgerock/openam/utils/ValidateIPAddressTest.java:33-572 | every well-formed address is accepted in its text form |
| IPv6.AcceptedIsRendering | openam-shared/src/test/java/org/forgerock/openam/utils/ValidateIPAddressTest.java:33-572 | every accepted string is the text form of a well-formed address |
| IPv6.CountWithoutElision | openam-shared/src/test/java/org/forgerock/openam/utils/ValidateIPAddressTest.java:332-352 | without "::", a text form is accepted exactly when it has eight pieces |
| IPv6.CountLeadingElision | openam-shared/src/test/java/org/forgerock/openam/utils/ValidateIPAddressTest.java:258-330 | a text form starting with "::" is accepted exactly when at most seven pieces follow |
| IPv6.CountInnerElision | openam-shared/src/test/java/org/forgerock/openam/utils/ValidateIPAddressTest.java:258-330 | groups, "::" and more: accepted exactly when at most seven pieces are written |
| IPv6Properties.AcceptedShape | openam-shared/src/test/java/org/forgerock/openam/utils/ValidateIPAddressTest.java:33-572 | an accepted string uses only hex digits, `:` and `.`; has at most four hex digits in a row; has a colon; has no colon after a dot; has "::" at most once; and starts or ends with a colon only as part of "::" |
| IPv6Properties.EmptyRejected | openam-shared/src/test/java/org/forgerock/openam/utils/ValidateIPAddressTest.java:33 | the empty string is rejected |
| IPv6Properties.BadCharRejected | openam-shared/src/test/java/org/forgerock/openam/utils/ValidateIPAddressTest.java:248-249 | a character other than a hex digit, `:` or `.` anywhere means rejection |
| IPv6Properties.FiveHexDigitsRejected | openam-shared/src/test/java/org/forgerock/openam/utils/ValidateIPAddressTest.java:51-52 | five hex digits in a row mean rejection |
| IPv6Properties.TwoElisionsRejected | openam-shared/src/test/java/org/forgerock/openam/utils/ValidateIPAddressTest.java:380-406 | two "::" at different positions mean rejection |
| IPv6Properties.TripleColonRejected | openam-shared/src/test/java/org/forgerock/openam/utils/ValidateIPAddressTest.java:372-379 | ":::" anywhere means rejection |
| IPv6Properties.LoneColonAtEndsRejected | openam-shared/src/test/java/org/forgerock/openam/utils/ValidateIPAddressTest.java:354-370 | a colon at either end that is not part of "::" means rejection |
| IPv6Properties.NoColonRejected | openam-shared/src/test/java/org/forgerock/openam/utils/ValidateIPAddressTest.java:190 | a string with no colon, such as a bare IPv4 address, is rejected |
| IPv6Properties.ColonAfterDotRejected | openam-shared/src/test/java/org/forgerock/openam/utils/ValidateIPAddressTest.java:192-197 | a colon after a dot means rejection: an IPv4 address ends the text |
| IPv6Properties.PiecesWithoutElision | openam-shared/src/test/java/org/forgerock/openam/utils/ValidateIPAddressTest.java:332-352 | without "::", groups (and a quad counting as two) are accepted exactly when there are eight pieces |
| IPv6Properties.GroupCount | openam-shared/src/test/java/org/forgerock/openam/utils/ValidateIPAddressTest.java:336-344 | groups alone are accepted exactly when there are eight |
| IPv6Properties.GroupsThenIPv4Count | openam-shared/src/test/java/org/forgerock/openam/utils/ValidateIPAddressTest.java:408-419 | groups then an IPv4 address are accepted exactly when there are six groups |
| IPv6Properties.PiecesAroundElision | openam-shared/src/test/java/org/forgerock/openam/utils/ValidateIPAddressTest.java:258-330 | with "::", the text form is accepted exactly when at most seven pieces are written |
| IPv6Vectors.Lines33To54 | openam-shared/src/test/java/org/forgerock/openam/utils/ValidateIPAddressTest.java:33-54 | the verdict of each address in these rows |
| IPv6Vectors.Lines56To100 | openam-shared/src/test/java/org/forgerock/openam/utils/ValidateIPAddressTest.java:56-100 | the verdict of each address in these rows |
| IPv6Vectors.Lines102To190 | openam-shared/src/test/java/org/forgerock/openam/utils/ValidateIPAddressTest.java:102-190 | the verdict of each address in these rows |
| IPv6Vectors.Lines192To204 | openam-shared/src/test/java/org/forgerock/openam/utils/ValidateIPAddressTest.java:192-204 | the verdict of each address in these rows |
| IPv6Vectors.Lines206To213 | openam-shared/src/test/java/org/forgerock/openam/utils/ValidateIPAddressTest.java:206-213 | the verdict of each address in these rows |
| IPv6Vectors.Lines215To229 | openam-shared/src/test/java/org/forgerock/openam/utils/ValidateIPAddressTest.java:215-229 | the verdict of each address in these rows |
| IPv6Vectors.Lines231To246 | openam-shared/src/test/java/org/forgerock/openam/utils/ValidateIPAddressTest.java:231-246 | the verdict of each address in these rows |
| IPv6Vectors.Lines248To256 | openam-shared/src/test/java/org/forgerock/openam/utils/ValidateIPAddressTest.java:248-256 | the verdict of each address in these rows |
| IPv6Vectors.Lines258To330 | openam-shared/src/test/java/org/forgerock/openam/utils/ValidateIPAddressTest.java:258-330 | the verdict of each address in these rows |
| IPv6Vectors.Lines332To352 | openam-shared/src/test/java/org/forgerock/openam/utils/ValidateIPAddressTest.java:332-352 | the verdict of each address in these rows |
| IPv6Vectors.Lines354To370 | openam-shared/src/test/java/org/forgerock/openam/utils/ValidateIPAddressTest.java:354-370 | the verdict of each address in these rows |
| IPv6Vectors.Lines372To406 | openam-shared/src/test/java/org/forgerock/openam/utils/ValidateIPAddressTest.java:372-406 | the verdict of each address in these rows |
| IPv6Vectors.Lines408To430 | openam-shared/src/test/java/org/forgerock/openam/utils/ValidateIPAddressTest.java:408-430 | the verdict of each address in these rows |
| IPv6Vectors.Lines432To459 | openam-shared/src/test/java/org/forgerock/openam/utils/ValidateIPAddressTest.java:432-459 | the verdict of each address in these rows |
| IPv6Vectors.Lines461To472 | openam-shared/src/test/java/org/forgerock/openam/utils/ValidateIPAddressTest.java:461-472 | the verdict of each address in these rows |
| IPv6Vectors.Lines474To530 | openam-shared/src/test/java/org/forgerock/openam/utils/ValidateIPAddressTest.java:474-530 | the verdict of each address in these rows |
| IPv6Vectors.Lines532To567 | openam-shared/src/test/java/org/forgerock/openam/utils/ValidateIPAddressTest.java:532-567 | the verdict of each address in these rows |
| IPv6Vectors.Lines569To572 | openam-shared/src/test/java/org/forgerock/openam/utils/ValidateIPAddressTest.java:569-572 | the verdict of each address in these rows |

## Where the model follows the code over its comments

- `doGet` (line 485) and `doPost` (line 688) send the 401 challenge when the declared length is 0 *and* a non-empty `Authorization` header is present. The comment there describes starting the Digest flow. The model follows the condition as written.
- `doPost` (line 696) answers 400 when a `Request` root *is* present. The comment speaks of a missing one. The model follows the condition as written (`XacmlService.PostBadRequest`).
- `doPost` takes any header starting with the Digest scheme for Digest (line 703), even an empty one. `doGet` also requires it to be non-empty (lines 493-495).
- `doGet` renders the home document for any request whose body has a wrapper, even with no Digest header; no credential is checked (`XacmlService.GetWrapperWithoutDigest`).
- `preAuthenticateUsingDigest` ignores the header's `username` and checks the configured user. The password in HA1 is the fixed text "password" (line 299).
- The request-digest uses the header's `uri`. A missing `uri`, `nc` or `cnonce` enters the hash as the text "null", as Java's string concatenation writes it (`JavaText.Str`).
- A `normalize` result of NONE for a known media type would leave status 200 with an empty response. The model follows that, via `AdmissionReply` and `Respond`.

## Findings

| source | as written | input that shows it | evidently intended | confidence | as-written member | corrected member |
|---|---|---|---|---|---|---|
| openam/openam-xacml-resources/src/main/java/org/forgerock/identity/openam/xacml/v3/services/XacmlContentHandlerService.java:956-957 | `parseRequestInformation` builds the request information from the content type, URI, meta alias, PDP entity and realm only. No line shown sets its authentication header, so `getAuthenticationHeader()` at lines 688 and 703 sees no header and `isAuthenticated()` is never set. | a POST with a non-zero length, no `Request` root, and an `Authorization: Digest …` header whose `response` is the correct RFC 2617 request-digest: 401 without a wrapper, 403 with one (`XacmlService.HeaderUnsetTurnsClientAway`) | the header is the request's `Authorization` header, so a correct Digest is rendered (`XacmlService.PostFromClient`) | low: `XACMLRequestInformation` is not part of this model and might obtain the header some other way; not executed | XacmlService.PostOutcomeHeaderUnset | XacmlService.ParseRequestInformation |

## Left out

- `init`, `calculateNonce` and the nonce-refresh timer: clocks, randomness and resource loading. The nonce is a configuration value.
- `DigestUtils.md5Hex` internals: MD5 is a parameter. `getBytes` and the platform charset are not modelled: lengths are counted in characters, where Java counts UTF-16 units.
- DOM parsing and XPath evaluation: the document is abstract. It records only whether the root is an `XACMLAuthzDecisionQuery` (with its attributes) and whether the root is a `Request`. The debug logging of attributes is left out.
- `getRequestBody`: stream I/O. The body is part of the request.
- `parseRequestInformation`'s realm derivation through `XACML3Utils` (URI to meta alias to realm), and its `SAML2Exception` path that returns null. The realm is part of the request.
- `XacmlHomeResource.getHome`, `XacmlPDPResource.processPDP_XMLRequest` and `processPDP_JSONRequest` are inputs (`XacmlService.Delegates`). A JSON exception in `getHome` is `None`, after which `doGet` renders the request information's still-null response.
- `XacmlService.PostBodyNeedsDigest`: `processPDP_XMLRequest` and `processPDP_JSONRequest` also receive the servlet response (lines 746 and 753), for every wrapped POST and before the 403 check at line 760. The model lets them only leave an answer in the request information and never touch the response. The lemma therefore covers only the handler's own writes, not what the PDP code might write.
- `XacmlRequest.RequestInformation.constructor` and `XacmlService.ParseRequestInformation`: the class `XACMLRequestInformation` is not part of this model. Its constructor call (lines 956-957) receives no header, and nothing in the servlet sets one. The model assumes that `getAuthenticationHeader()` (lines 485, 493, 688, 703) returns the request's `Authorization` header; every Digest result rests on that (see "Findings").
- `XacmlRequest.SetByName` and `XacmlRequest.EmptyQuery`: `XACMLAuthzDecisionQuery` is not part of this model. The model assumes that a new request information starts with every query attribute null. It also assumes that `setByName` (line 1064) sets the attribute whose name is exactly "ID", "IssueInstant", "Version", "Destination" or "Consent" and ignores any other name. `HasRequiredFields`, and through it `MissingFieldStops`, `RequestNodeReported` and `PostBadRequest`, rest on these assumptions.
- `parseJSONRequest` is a stub in the source and does nothing. The model leaves a JSON body unparsed.
- `doPut`, `doDelete`, `getServletInfo`, `responseToXML`, `xmlToRequestObject`, `getHandlers` and the resource helpers are not part of the core.
- The exception `md5Hex` throws on a null body with `auth-int` is a fault. The handler stops and nothing more is written (`XacmlService.DoPost` and `DoGet` report it). Servlet error handling after that is left out.
- The commit semantics of the servlet response (for example, a status set after the body is written) and closing the output stream are not modelled. The response records every setter call.
- `JavaText.IsWhitespace` follows `Character.isWhitespace` for the characters listed. It leaves out U+180E, whose classification depends on the Java version.
- `ValidateIPaddress.isIPv6`'s own source is not part of this model. The scanner is defined to give every verdict in the test table and the RFC 4291 text forms. The IPv4-only and zone-index forms are not covered.

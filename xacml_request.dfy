/**
 * What the front end learns from a request body: `XACMLRequestInformation`
 * and the structural part of `parseXMLRequest`. The XML document is
 * abstract: whether the root is an `XACMLAuthzDecisionQuery` wrapper (with
 * its attributes) and whether the root is a `Request`; the XML parser is a
 * parameter that yields such a document or fails.
 */
module XacmlRequest {
  import opened JavaText
  import opened Http

  /** An element found by the XPath queries, with its attributes in the order the DOM lists them. */
  datatype Node = Node(attributes: seq<(string, string)>)

  /**
   * A parsed document: the root wrapper and the root `Request`, where present.
   * Both XPath queries are absolute and a document has one root element, so a
   * real parse yields at most one of the two; nothing here relies on that.
   */
  datatype Document = Document(authzQuery: Option<Node>, request: Option<Node>)

  /** The attributes of SAML 2.0 Core section 3.2.1 the wrapper carries. */
  datatype AuthzQuery = AuthzQuery(id: JString, issueInstant: JString, version: JString,
                                   destination: JString, consent: JString)

  /** The query a new request information starts with: every attribute null (assumed, see README). */
  const EmptyQuery := AuthzQuery(None, None, None, None, None)

  /**
   * `setByName`: the attribute whose name matches exactly takes the value;
   * other names are ignored (assumed, see README).
   */
  function SetByName(q: AuthzQuery, name: string, value: string): AuthzQuery {
    if name == "ID" then q.(id := Some(value))
    else if name == "IssueInstant" then q.(issueInstant := Some(value))
    else if name == "Version" then q.(version := Some(value))
    else if name == "Destination" then q.(destination := Some(value))
    else if name == "Consent" then q.(consent := Some(value))
    else q
  }

  /** The query after `setByName` over the attributes, first to last. */
  function ApplyAttributes(q: AuthzQuery, attrs: seq<(string, string)>): AuthzQuery {
    if attrs == [] then q
    else SetByName(ApplyAttributes(q, attrs[..|attrs| - 1]), attrs[|attrs| - 1].0, attrs[|attrs| - 1].1)
  }

  /** The last attribute named "ID" gives the id; with none the id is untouched. */
  lemma {:induction false} ApplyAttributesId(q: AuthzQuery, attrs: seq<(string, string)>)
    ensures ApplyAttributes(q, attrs).id ==
      if exists i :: 0 <= i < |attrs| && attrs[i].0 == "ID"
      then Some(attrs[LastNamed(attrs, "ID")].1) else q.id
    decreases |attrs|
  {
    if attrs != [] {
      var init := attrs[..|attrs| - 1];
      ApplyAttributesId(q, init);
      if attrs[|attrs| - 1].0 != "ID" {
        if exists i :: 0 <= i < |attrs| && attrs[i].0 == "ID" {
          var i :| 0 <= i < |attrs| && attrs[i].0 == "ID";
          assert init[i].0 == "ID";
        }
        if exists i :: 0 <= i < |init| && init[i].0 == "ID" {
          var i :| 0 <= i < |init| && init[i].0 == "ID";
          assert attrs[i].0 == "ID";
        }
      }
    }
  }

  /** The position of the last attribute with the given name. */
  function LastNamed(attrs: seq<(string, string)>, name: string): (r: int)
    requires exists i :: 0 <= i < |attrs| && attrs[i].0 == name
    ensures 0 <= r < |attrs| && attrs[r].0 == name
    ensures forall j :: r < j < |attrs| ==> attrs[j].0 != name
    decreases |attrs|
  {
    if attrs[|attrs| - 1].0 == name then |attrs| - 1
    else
      var init := attrs[..|attrs| - 1];
      assert exists i :: 0 <= i < |init| && init[i].0 == name by {
        var i :| 0 <= i < |attrs| && attrs[i].0 == name;
        assert init[i].0 == name;
      }
      LastNamed(init, name)
  }

  /** `isRequiredFieldPresent`: non-null and not empty. */
  predicate IsRequiredFieldPresent(v: JString) {
    v.Some? && v.value != ""
  }

  /** The wrapper carries the required ID, IssueInstant and Version. */
  predicate HasRequiredFields(q: AuthzQuery) {
    IsRequiredFieldPresent(q.id) && IsRequiredFieldPresent(q.issueInstant) && IsRequiredFieldPresent(q.version)
  }

  /** The text handed to the parser: the content, behind the XML declaration unless it starts with "<?". */
  function WithXmlHeader(content: string, xmlHeader: string): (r: string)
    ensures StartsWith(content, "<?") ==> r == content
    ensures !StartsWith(content, "<?") ==> r == xmlHeader + content
  {
    if StartsWith(content, "<?") then content else xmlHeader + content
  }

  /** With a declaration for a header, the text handed to the parser always starts with one. */
  lemma WithXmlHeaderDeclares(content: string, xmlHeader: string)
    requires StartsWith(xmlHeader, "<?")
    ensures StartsWith(WithXmlHeader(content, xmlHeader), "<?")
    ensures WithXmlHeader(WithXmlHeader(content, xmlHeader), xmlHeader) == WithXmlHeader(content, xmlHeader)
  {
    if !StartsWith(content, "<?") {
      var r := xmlHeader + content;
      assert r[..2] == xmlHeader[..2];
    }
  }

  /** The part of the request information `parseXMLRequest` sets. */
  datatype Parsed = Parsed(content: Option<Document>, wrapper: Option<Node>, query: AuthzQuery,
                           requestNodePresent: bool)

  /** What `parseXMLRequest` makes of the original content, starting from `p`. */
  function ParseXml(p: Parsed, original: JString, xmlHeader: string, parse: string -> Option<Document>): Parsed {
    if original.None? || original.value == "" then p
    else
      var document := parse(WithXmlHeader(original.value, xmlHeader));
      if document.None? then p.(content := None)
      else
        var doc := document.value;
        var withWrapper :=
          if doc.authzQuery.Some? then
            p.(content := document, wrapper := doc.authzQuery,
               query := ApplyAttributes(p.query, doc.authzQuery.value.attributes))
          else p.(content := document);
        if doc.authzQuery.Some? && !HasRequiredFields(withWrapper.query) then withWrapper
        else if doc.request.Some? then withWrapper.(requestNodePresent := true)
        else withWrapper
  }

  /** Null or empty content leaves everything as it was. */
  lemma EmptyContentIgnored(p: Parsed, original: JString, xmlHeader: string, parse: string -> Option<Document>)
    requires original.None? || original.value == ""
    ensures ParseXml(p, original, xmlHeader, parse) == p
  {
  }

  /**
   * The request node is reported exactly when it was already, or the content
   * parses, has a `Request` root, and any wrapper carries the required fields.
   */
  lemma RequestNodeReported(p: Parsed, original: JString, xmlHeader: string, parse: string -> Option<Document>)
    ensures ParseXml(p, original, xmlHeader, parse).requestNodePresent <==>
      p.requestNodePresent ||
      (original.Some? && original.value != "" &&
       var d := parse(WithXmlHeader(original.value, xmlHeader));
       d.Some? && d.value.request.Some? &&
       (d.value.authzQuery.Some? ==> HasRequiredFields(ApplyAttributes(p.query, d.value.authzQuery.value.attributes))))
  {
  }

  /** A wrapper missing ID, IssueInstant or Version stops the parse before the request node is looked for. */
  lemma MissingFieldStops(p: Parsed, original: JString, xmlHeader: string, parse: string -> Option<Document>)
    requires original.Some? && original.value != ""
    requires var d := parse(WithXmlHeader(original.value, xmlHeader));
      d.Some? && d.value.authzQuery.Some? &&
      !HasRequiredFields(ApplyAttributes(p.query, d.value.authzQuery.value.attributes))
    ensures ParseXml(p, original, xmlHeader, parse).requestNodePresent == p.requestNodePresent
    ensures ParseXml(p, original, xmlHeader, parse).wrapper.Some?
  {
  }

  /** `XACMLRequestInformation`: what the handlers know and decide about one request. */
  class RequestInformation {
    const contentType: ContentType
    const realm: JString
    /**
     * `getAuthenticationHeader()`: taken to be the request's Authorization
     * header, though nothing in the servlet sets it (see README).
     */
    const authenticationHeader: JString
    var originalContent: JString
    var content: Option<Document>
    /** The `XACMLAuthzDecisionQuery` wrapper, when the body has one. */
    var authenticationContent: Option<Node>
    var xacmlAuthzDecisionQuery: AuthzQuery
    var requestNodePresent: bool
    var digestValid: bool
    var authenticated: bool
    var xacmlStringResponse: JString

    function ParseState(): Parsed
      reads this
    {
      Parsed(content, authenticationContent, xacmlAuthzDecisionQuery, requestNodePresent)
    }

    constructor (contentType: ContentType, realm: JString, authenticationHeader: JString)
      ensures this.contentType == contentType && this.realm == realm
      ensures this.authenticationHeader == authenticationHeader
      ensures originalContent == None && ParseState() == Parsed(None, None, EmptyQuery, false)
      ensures !digestValid && !authenticated && xacmlStringResponse == None
    {
      this.contentType := contentType;
      this.realm := realm;
      this.authenticationHeader := authenticationHeader;
      originalContent := None;
      content := None;
      authenticationContent := None;
      xacmlAuthzDecisionQuery := EmptyQuery;
      requestNodePresent := false;
      digestValid := false;
      authenticated := false;
      xacmlStringResponse := None;
    }
  }

  /** `parseXMLRequest`: fills in the document, the wrapper and its query, and the request-node flag. */
  method ParseXmlRequest(info: RequestInformation, xmlHeader: string, parse: string -> Option<Document>)
    modifies info
    ensures info.ParseState() == ParseXml(old(info.ParseState()), info.originalContent, xmlHeader, parse)
    ensures info.originalContent == old(info.originalContent)
    ensures info.digestValid == old(info.digestValid) && info.authenticated == old(info.authenticated)
    ensures info.xacmlStringResponse == old(info.xacmlStringResponse)
  {
    if info.originalContent.None? || info.originalContent.value == "" {
      return;
    }
    var document := parse(WithXmlHeader(info.originalContent.value, xmlHeader));
    info.content := document;
    if document.None? {
      return;
    }
    var wrapper := document.value.authzQuery;
    if wrapper.Some? {
      info.authenticationContent := wrapper;
      SetAttributes(info, wrapper.value.attributes);
      var q := info.xacmlAuthzDecisionQuery;
      if !IsRequiredFieldPresent(q.id) || !IsRequiredFieldPresent(q.issueInstant) ||
         !IsRequiredFieldPresent(q.version) {
        return;
      }
    }
    if document.value.request.Some? {
      info.requestNodePresent := true;
    }
  }

  lemma ApplyStep(q: AuthzQuery, attrs: seq<(string, string)>, i: int)
    requires 0 <= i < |attrs|
    ensures ApplyAttributes(q, attrs[..i + 1]) == SetByName(ApplyAttributes(q, attrs[..i]), attrs[i].0, attrs[i].1)
  {
    assert attrs[..i + 1][..i] == attrs[..i];
  }

  /** The attribute loop of `parseXMLRequest`: `setByName` for each wrapper attribute in turn. */
  method SetAttributes(info: RequestInformation, attrs: seq<(string, string)>)
    modifies info
    ensures info.xacmlAuthzDecisionQuery == ApplyAttributes(old(info.xacmlAuthzDecisionQuery), attrs)
    ensures info.ParseState() == old(info.ParseState()).(query := info.xacmlAuthzDecisionQuery)
    ensures info.originalContent == old(info.originalContent)
    ensures info.digestValid == old(info.digestValid) && info.authenticated == old(info.authenticated)
    ensures info.xacmlStringResponse == old(info.xacmlStringResponse)
  {
    var i := 0;
    while i < |attrs|
      invariant 0 <= i <= |attrs|
      invariant info.xacmlAuthzDecisionQuery == ApplyAttributes(old(info.xacmlAuthzDecisionQuery), attrs[..i])
      invariant info.ParseState() == old(info.ParseState()).(query := info.xacmlAuthzDecisionQuery)
      invariant info.originalContent == old(info.originalContent)
      invariant info.digestValid == old(info.digestValid) && info.authenticated == old(info.authenticated)
      invariant info.xacmlStringResponse == old(info.xacmlStringResponse)
    {
      ApplyStep(old(info.xacmlAuthzDecisionQuery), attrs, i);
      info.xacmlAuthzDecisionQuery := SetByName(info.xacmlAuthzDecisionQuery, attrs[i].0, attrs[i].1);
      i := i + 1;
    }
    assert attrs[..i] == attrs;
  }
}

/**
 * The parts of the servlet API the XACML front end touches: the normalised
 * content type of a request, and the response object whose status, headers,
 * character encoding, content length and body it sets.
 */
module Http {
  import opened JavaText

  /** The two content languages the front end distinguishes. */
  datatype CommonType = XML | JSON

  /** `ContentType`: NONE, or a recognised media type with its common type. */
  datatype ContentType = NONE | Media(applicationType: string, commonType: CommonType)

  const SC_OK := 200
  const SC_BAD_REQUEST := 400
  const SC_UNAUTHORIZED := 401
  const SC_FORBIDDEN := 403
  const SC_LENGTH_REQUIRED := 411
  const SC_REQUEST_ENTITY_TOO_LARGE := 413
  const SC_UNSUPPORTED_MEDIA_TYPE := 415

  const UTF8 := "UTF-8"

  /** Everything a response has been given so far. */
  datatype Reply = Reply(status: int, encoding: JString, length: Option<int>, contentType: JString,
                         headers: seq<(string, string)>, body: string)

  /** A fresh response: status 200 and nothing set. */
  const Initial := Reply(SC_OK, None, None, None, [], "")

  /** `HttpServletResponse`, reduced to the state the front end sets. */
  class Response {
    var status: int
    var characterEncoding: JString
    var contentLength: Option<int>
    var contentType: JString
    var headers: seq<(string, string)>
    /** What has been written to the output stream. */
    var body: string

    function Snapshot(): Reply
      reads this
    {
      Reply(status, characterEncoding, contentLength, contentType, headers, body)
    }

    constructor ()
      ensures Snapshot() == Initial
    {
      status := SC_OK;
      characterEncoding := None;
      contentLength := None;
      contentType := None;
      headers := [];
      body := "";
    }

    method SetStatus(code: int)
      modifies this
      ensures Snapshot() == old(Snapshot()).(status := code)
    {
      status := code;
    }

    method SetCharacterEncoding(encoding: string)
      modifies this
      ensures Snapshot() == old(Snapshot()).(encoding := Some(encoding))
    {
      characterEncoding := Some(encoding);
    }

    method SetContentLength(length: int)
      modifies this
      ensures Snapshot() == old(Snapshot()).(length := Some(length))
    {
      contentLength := Some(length);
    }

    method SetContentType(mediaType: string)
      modifies this
      ensures Snapshot() == old(Snapshot()).(contentType := Some(mediaType))
    {
      contentType := Some(mediaType);
    }

    /** `addHeader` keeps earlier values of the same header. */
    method AddHeader(name: string, value: string)
      modifies this
      ensures Snapshot() == old(Snapshot()).(headers := old(headers) + [(name, value)])
    {
      headers := headers + [(name, value)];
    }

    /** Writes to the output stream. */
    method Write(s: string)
      modifies this
      ensures Snapshot() == old(Snapshot()).(body := old(body) + s)
    {
      body := body + s;
    }
  }
}

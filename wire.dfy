/**
 * The adapter's external interfaces: the HTTP exchange with the ingestion
 * endpoint, the structural shape of an encoded payload, the abstract
 * environment (encoder and transport) and the error kinds of one delivery.
 */
module Wire {
  import opened Wrappers

  /** An HTTP status code as the transport reports it (three digits). */
  newtype StatusCode = x: int | 100 <= x < 1000 witness 200

  /** The 2xx class. */
  predicate IsSuccess(status: StatusCode)
  {
    200 <= status < 300
  }

  /** A received response; `body` is None when reading the body text fails. */
  datatype HttpResponse = HttpResponse(status: StatusCode, body: Option<string>)

  /** What the transport does with one POST: no answer (DNS, connection, TLS) or a response. */
  datatype Transport = ConnectionFailed | Responded(response: HttpResponse)

  /**
   * An encoded body, kept structurally: every record is a map from field
   * name to string value. The trace path encodes an array of records, the
   * log path a single record.
   */
  datatype Payload = Array(records: seq<map<string, string>>) | Single(record: map<string, string>)

  /** One POST as issued: target URL, header map and body. */
  datatype Request = Request(url: string, headers: map<string, string>, body: Payload)

  /** Whatever one call cannot see: whether the encoder fails, and what the transport answers. */
  datatype Environment = Environment(encoderFails: bool, transport: Transport)

  datatype Error =
    | EncodingError
    | InvalidAuthorizationHeader
    | InvalidContentTypeHeader
    | TransportError
    | ApiError(status: StatusCode, body: string)

  const AuthorizationHeader: string := "authorization"
  const ContentTypeHeader: string := "content-type"
  const MsgpackContentType: string := "application/msgpack"
  /** Text reported in place of a response body that cannot be read. */
  const EmptyBody: string := "<empty>"

  function BearerValue(token: string): (v: string)
    ensures |v| == |token| + 7 && v[7..] == token
  {
    "Bearer " + token
  }

  /** The header map every delivery must carry, and nothing more. */
  function ExpectedHeaders(token: string): (h: map<string, string>)
    ensures h.Keys == {AuthorizationHeader, ContentTypeHeader} && |h| == 2
    ensures h[AuthorizationHeader] == BearerValue(token)
    ensures h[ContentTypeHeader] == MsgpackContentType
  {
    var h := map[AuthorizationHeader := BearerValue(token), ContentTypeHeader := MsgpackContentType];
    assert |h.Keys| == 2;
    h
  }

  /** The body text carried by a status error. */
  function BodyText(response: HttpResponse): string
  {
    if response.body.Some? then response.body.value else EmptyBody
  }
}

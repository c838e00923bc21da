/** The delivery client (src/client/mod.rs): header construction, then one POST. */
module Client {
  import opened Wrappers
  import opened Wire
  import opened Header

  /** `BetterStackClient`: the endpoint URL and bearer token it was built with. */
  datatype BetterStackClient = BetterStackClient(url: string, token: string)

  /**
   * `get_headers`: exactly the authorization and content-type headers, or the
   * authorization error when the token cannot appear in a header value. The
   * content-type step cannot fail.
   */
  method GetHeaders(client: BetterStackClient) returns (r: Result<map<string, string>, Error>)
    ensures r.Ok? <==> ValidHeaderValue(client.token)
    ensures r.Ok? ==> r.value == ExpectedHeaders(client.token)
    ensures r.Err? ==> r.error == InvalidAuthorizationHeader
  {
    BearerValid(client.token);
    ContentTypeValid();
    var builder := new HeaderBuilder.Builder();
    var ok := builder.Insert(AuthorizationHeader, BearerValue(client.token));
    if !ok {
      return Err(InvalidAuthorizationHeader);
    }
    ok := builder.Insert(ContentTypeHeader, MsgpackContentType);
    if !ok {
      return Err(InvalidContentTypeHeader);
    }
    var headers := builder.Build();
    return Ok(headers);
  }

  /**
   * `send_message`: headers first, so a header failure issues no request; then
   * the body is posted unchanged to the client's URL. The response is handed
   * back whatever its status; only a transport failure is an error after that.
   */
  method SendMessage(client: BetterStackClient, body: Payload, transport: Transport)
    returns (r: Result<HttpResponse, Error>, sent: Option<Request>)
    ensures sent.Some? <==> ValidHeaderValue(client.token)
    ensures sent.Some? ==> sent.value == Request(client.url, ExpectedHeaders(client.token), body)
    ensures sent.None? ==> r == Err(InvalidAuthorizationHeader)
    ensures sent.Some? && transport.ConnectionFailed? ==> r == Err(TransportError)
    ensures sent.Some? && transport.Responded? ==> r == Ok(transport.response)
  {
    var headers := GetHeaders(client);
    if headers.Err? {
      return Err(headers.error), None;
    }
    var request := Request(client.url, headers.value, body);
    sent := Some(request);
    match transport
    case ConnectionFailed =>
      r := Err(TransportError);
    case Responded(response) =>
      r := Ok(response);
  }
}

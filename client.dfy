/**
 * The Pinata HTTP client: its configuration, the records the service sends
 * back, and the one request path every call goes through (authorise, send,
 * accept status 200 only).
 *
 * The network is not modelled: each exchange is given the `Reply` the
 * service (or the transport) produced for the request the client sent.
 */
module Client {
  import opened Wrappers
  import opened Os
  import opened Errors

  const DefaultHostURL: string := "https://api.pinata.cloud"

  /** The fixed timeout of the client's HTTP transport. */
  const TimeoutSeconds: nat := 10

  datatype Client = Client(hostURL: string, token: string, timeoutSeconds: nat)

  /** `PinFileToIpfs`: the answer to a pin upload. */
  datatype PinFileToIpfs = PinFileToIpfs(ipfsHash: string, id: string, name: string)

  /** `PinById.Data`: the answer to a look-up by id (the id is a string, see the README). */
  datatype PinData = PinData(id: string, name: string, cid: string)

  datatype PinById = PinById(data: PinData)

  /** A file to upload: the file name declared in its part, and where to read it. */
  datatype File = File(name: string, path: string)

  datatype HttpMethod = Get | Post | Delete

  /** One part of a multipart/form-data body. */
  datatype Part =
    | FilePart(field: string, fileName: string, content: Bytes)
    | FieldPart(field: string, text: string)

  datatype Request = Request(verb: HttpMethod, url: string, header: map<string, string>, body: seq<Part>)

  /** What the JSON library makes of a body: one of the two records, or a syntax error. */
  datatype Json =
    | PinFileToIpfsJson(pin: PinFileToIpfs)
    | PinByIdJson(byId: PinById)
    | Malformed(reason: string)

  datatype Body = Body(text: string, json: Json)

  /** The outcome of one HTTP exchange: no response at all, or a status and a body. */
  datatype Reply = NoResponse(reason: string) | Response(status: int, body: Body)

  /**
   * `NewClient(host, token)`; a nil `*string` is `None`. The error result is
   * always nil.
   */
  method NewClient(host: Option<string>, token: Option<string>) returns (c: Client, err: Option<Error>)
    ensures err == None
    ensures c.hostURL != ""
    ensures host.Some? && host.value != "" ==> c.hostURL == host.value
    ensures host.None? || host.value == "" ==> c.hostURL == DefaultHostURL
    ensures c.token == (if token.Some? then token.value else "")
    ensures c.timeoutSeconds == TimeoutSeconds
  {
    c := Client(DefaultHostURL, "", TimeoutSeconds);
    if host.Some? && host.value != "" {
      c := c.(hostURL := host.value);
    }
    if token.None? {
      return c, None;
    }
    c := c.(token := token.value);
    return c, None;
  }

  const AuthorizationHeader: string := "Authorization"
  const BearerPrefix: string := "Bearer "

  /** The request with its `Authorization` header set to the bearer token; nothing else changes. */
  function Authorized(req: Request, token: string): (r: Request)
    ensures AuthorizationHeader in r.header && r.header[AuthorizationHeader] == BearerPrefix + token
    ensures r.header.Keys == req.header.Keys + {AuthorizationHeader}
    ensures forall k :: k in req.header && k != AuthorizationHeader ==> r.header[k] == req.header[k]
    ensures r.verb == req.verb && r.url == req.url && r.body == req.body
  {
    req.(header := req.header[AuthorizationHeader := BearerPrefix + token])
  }

  /** The status gate of `doRequest`: status 200 and nothing else lets the body through. */
  function Gate(reply: Reply): (r: Result<Body, Error>)
    ensures r.Ok? <==> reply.Response? && reply.status == 200
    ensures r.Ok? ==> r.value == reply.body
    ensures reply.Response? && reply.status != 200 ==> r == Err(StatusError(reply.status, reply.body.text))
    ensures reply.NoResponse? ==> r == Err(TransportError(reply.reason))
  {
    match reply
    case NoResponse(reason) => Err(TransportError(reason))
    case Response(status, body) =>
      if status != 200 then Err(StatusError(status, body.text)) else Ok(body)
  }

  /**
   * `doRequest`: sets the bearer header on the request, sends it, and gates
   * the reply on its status. `sent` is the request as it went out.
   */
  method DoRequest(c: Client, req: Request, reply: Reply) returns (body: Result<Body, Error>, sent: Request)
    ensures sent == Authorized(req, c.token)
    ensures body == Gate(reply)
  {
    sent := Authorized(req, c.token);
    if reply.NoResponse? {
      return Err(TransportError(reply.reason)), sent;
    }
    if reply.status != 200 {
      return Err(StatusError(reply.status, reply.body.text)), sent;
    }
    body := Ok(reply.body);
  }

  /** Every other 2xx status fails like any other non-200 status. */
  lemma OnlyStatus200Succeeds(status: int, body: Body)
    requires 200 <= status < 300 && status != 200
    ensures Gate(Response(status, body)) == Err(StatusError(status, body.text))
  {
  }
}

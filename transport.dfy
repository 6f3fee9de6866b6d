/** The controller's transport: turning one API call into an authenticated HTTP
    request, and the rule that only a 200 reply yields a body. URL joining and
    the HTTP exchange itself are supplied as a `Network`. */
module Transport {
  import opened Wrappers

  newtype byte = x: int | 0 <= x < 256

  type Bytes = seq<byte>

  const API_BASE_PATH: string := "/proxy/network/integrations"
  const METHOD_GET: string := "GET"
  const STATUS_OK: int := 200
  const API_KEY_HEADER: string := "X-API-KEY"
  const ACCEPT_HEADER: string := "Accept"
  const JSON_MEDIA_TYPE: string := "application/json"

  /** Why a call failed, one case per error return of the client. */
  datatype Error =
    | InvalidUrl                    // the host and path could not be joined
    | BadRequest                    // the request could not be created
    | TransportFailed               // executing the request failed
    | UnexpectedStatus(status: int) // the reply's status was not 200
    | ReadFailed                    // the reply's body could not be read
    | DecodeFailed                  // the body was not the expected JSON

  /** The controller client's fixed configuration: base URL of the controller and its API key. */
  datatype Config = Config(host: string, apiKey: string)

  /** One query parameter, in the order it was added. */
  datatype Param = Param(key: string, value: string)

  /** What an operation asks of the transport: HTTP method (verb), endpoint path and query. */
  datatype ApiCall = ApiCall(verb: string, path: string, params: seq<Param>)

  datatype Request = Request(verb: string, url: string, headers: map<string, string>, query: seq<Param>)

  /** The fate of one request: it could not be created, it could not be executed,
      or the controller answered with a status and a body (None when reading the
      body failed). */
  datatype Delivery = Rejected | Unreachable | Answered(status: int, body: Option<Bytes>)

  /** The environment the transport runs in: how a base URL and path elements
      join into a URL (None when the base URL does not parse), and what the
      controller does with each request. */
  datatype Network = Network(joinPath: (string, seq<string>) -> Option<string>, send: Request -> Delivery)

  /** The request sent for `call`, or None when no URL can be formed. Every
      request carries the API key and asks for JSON, and nothing else is set
      in its headers. */
  function Outgoing(net: Network, c: Config, call: ApiCall): (req: Option<Request>)
    ensures req.Some? <==> net.joinPath(c.host, [API_BASE_PATH, call.path]).Some?
    ensures req.Some? ==>
      && req.value.url == net.joinPath(c.host, [API_BASE_PATH, call.path]).value
      && req.value.verb == call.verb
      && req.value.query == call.params
      && req.value.headers.Keys == {API_KEY_HEADER, ACCEPT_HEADER}
      && req.value.headers[API_KEY_HEADER] == c.apiKey
      && req.value.headers[ACCEPT_HEADER] == JSON_MEDIA_TYPE
  {
    match net.joinPath(c.host, [API_BASE_PATH, call.path])
    case None => None
    case Some(u) => Some(Request(call.verb, u, map[API_KEY_HEADER := c.apiKey, ACCEPT_HEADER := JSON_MEDIA_TYPE], call.params))
  }

  /** The body of the controller's reply to `call`. It is returned exactly when
      the request was answered with status 200 and its body could be read; any
      other status is reported with its code whatever the body holds. */
  function CallApi(net: Network, c: Config, call: ApiCall): (r: Result<Bytes, Error>)
    ensures Outgoing(net, c, call).None? ==> r == Failure(InvalidUrl)
    ensures Outgoing(net, c, call).Some? ==>
      var d := net.send(Outgoing(net, c, call).value);
      && (r.Success? <==> d.Answered? && d.status == STATUS_OK && d.body.Some?)
      && (r.Success? ==> r.value == d.body.value)
      && (d.Answered? && d.status != STATUS_OK ==> r == Failure(UnexpectedStatus(d.status)))
      && (d.Answered? && d.status == STATUS_OK && d.body.None? ==> r == Failure(ReadFailed))
      && (d.Rejected? ==> r == Failure(BadRequest))
      && (d.Unreachable? ==> r == Failure(TransportFailed))
    ensures r.Failure? ==> r.error != DecodeFailed
  {
    match Outgoing(net, c, call)
    case None => Failure(InvalidUrl)
    case Some(req) =>
      match net.send(req)
      case Rejected => Failure(BadRequest)
      case Unreachable => Failure(TransportFailed)
      case Answered(status, body) =>
        if status != STATUS_OK then Failure(UnexpectedStatus(status))
        else if body.None? then Failure(ReadFailed)
        else Success(body.value)
  }
}

/**
 * The values that travel between the app and its backend through axios, and the
 * transport itself as a scripted oracle: each call consumes the next canned outcome.
 */
module Http {
  import opened Wrappers

  datatype Method = Get | Post | Put

  /**
   * Which axios object performs a call: the configured `api` instance (base URL, default
   * JSON content type, both interceptors) or axios's bare default export (no interceptors).
   */
  datatype Client = ApiInstance | BareAxios

  /** A file attached to a multipart body (`FileData`: uri, name, type). */
  datatype FileData = FileData(uri: string, name: string, mime: string)

  /** One `FormData.append` call: a text field or a file field. */
  datatype FormPart = TextField(field: string, text: string) | FileField(field: string, file: FileData)

  /** The request bodies the modelled services send. */
  datatype Body =
    | NoBody
    | SignInBody(email: string, password: string)
    | SignUpBody(name: string, email: string, phone: string, password: string)
    | RefreshBody(refreshToken: Option<string>)   // `{refreshToken}`, null when nothing is stored
    | FormBody(parts: seq<FormPart>)

  /**
   * An axios request config as it reaches the wire. `url` is relative for the `api`
   * instance (which prefixes its base URL) and absolute for bare axios; `retry` is the
   * `_retry` marker the response interceptor sets.
   */
  datatype Request = Request(
    client: Client,
    verb: Method,
    url: string,
    headers: map<string, string>,
    body: Body,
    retry: bool)

  /** `AuthResponse` of authService.ts. */
  datatype AuthResponse = AuthResponse(accessToken: string, refreshToken: string, tokenType: string, expiresIn: int)

  datatype Category = Category(id: string, name: string, image: string)

  /** The `data` member of an envelope, for the shapes the modelled code reads. */
  datatype Payload =
    | Tokens(auth: AuthResponse)
    | CategoryList(categories: seq<Category>)
    | CategoryRecord(category: Category)
    | OtherData

  /** `ApiResponse<T>`: every backend response is wrapped in this envelope. */
  datatype Envelope = Envelope(
    apiVersion: string,
    data: Payload,
    timestamp: string,
    statusCode: int,
    message: string,
    path: string)

  datatype Response = Response(status: int, body: Envelope)

  /** What the transport yields for one request: a response, or none at all (network failure, timeout). */
  datatype Outcome = Received(response: Response) | NoResponse

  /** The reasons a promise in the session pipeline can reject with. */
  datatype Error =
    | HttpError(response: Response, config: Request)   // a response outside 2xx
    | NetworkError(config: Request)                    // no response arrived
    | StorageError(key: string)                        // AsyncStorage rejected an operation on `key`
    | PayloadError                                     // the envelope's `data` lacks the fields read from it

  const ContentType := "Content-Type"
  const Authorization := "Authorization"
  const JsonType := "application/json"
  const MultipartType := "multipart/form-data"

  /** The `api` instance's default headers. */
  const DefaultHeaders: map<string, string> := map[ContentType := JsonType]

  /**
   * Whether axios's `settle` resolves: a falsy status (0, as for `file:` responses) resolves
   * without consulting `validateStatus`, and the default `validateStatus` accepts only 2xx.
   */
  predicate IsSuccess(status: int) {
    status == 0 || 200 <= status < 300
  }

  /**
   * How axios settles a request once the transport has answered. Settling loses nothing: the
   * transport's outcome can be read back from the result, a rejection always carries the
   * config that was sent, and it is never a storage or payload error.
   */
  function Settle(o: Outcome, sent: Request): (r: Result<Response, Error>)
    ensures r.Success? <==> o.Received? && IsSuccess(o.response.status)
    ensures r.Success? ==> Received(r.value) == o
    ensures r.Failure? ==> r.error.HttpError? || r.error.NetworkError?
    ensures r.Failure? && r.error.HttpError? ==> Received(r.error.response) == o && r.error.config == sent
    ensures r.Failure? && r.error.NetworkError? ==> o.NoResponse? && r.error.config == sent
  {
    match o
    case NoResponse => Failure(NetworkError(sent))
    case Received(resp) => if IsSuccess(resp.status) then Success(resp) else Failure(HttpError(resp, sent))
  }

  /**
   * `error.response?.data?.message || fallback`. The message shown is the server's only for a
   * response that carries a non-empty one; a network or storage failure always shows the
   * fallback; and with a non-empty fallback the message is never empty, so the screens'
   * `{error && ...}` always renders it.
   */
  function ServerMessage(e: Error, fallback: string): (m: string)
    ensures e.HttpError? && e.response.body.message != "" ==> m == e.response.body.message
    ensures !(e.HttpError? && e.response.body.message != "") ==> m == fallback
    ensures fallback != "" ==> m != ""
  {
    if e.HttpError? && e.response.body.message != "" then e.response.body.message else fallback
  }

  /** The outcome the transport gives next: the head of the script, or no response once it is used up. */
  function NextOutcome(script: seq<Outcome>): Outcome {
    if script == [] then NoResponse else script[0]
  }

  function RestOfScript(script: seq<Outcome>): (rest: seq<Outcome>)
    ensures |rest| == if script == [] then 0 else |script| - 1
  {
    if script == [] then [] else script[1..]
  }

  /** The network, as an oracle: `script` holds the outcomes still to come, `sent` every request put on the wire. */
  class Transport {
    var script: seq<Outcome>
    var sent: seq<Request>

    constructor (script: seq<Outcome>)
      ensures this.script == script && sent == []
    {
      this.script := script;
      sent := [];
    }

    method Send(req: Request) returns (o: Outcome)
      modifies this
      ensures sent == old(sent) + [req]
      ensures o == NextOutcome(old(script)) && script == RestOfScript(old(script))
    {
      sent := sent + [req];
      o := NextOutcome(script);
      script := RestOfScript(script);
    }
  }
}

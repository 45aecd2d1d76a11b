/**
 * The shapes shared by the runtime, the server and route registration:
 * errors, the request as a handler sees it, what a handler does to its
 * response, and a route's options.
 */
module Types {
  import opened Wrappers
  import opened Js

  /** `HttpError`: a failure that carries the HTTP status to answer with. */
  datatype HttpError = HttpError(status: int, message: string)

  /** What a body-reading promise (`request.json()`, `request.text()`) settles to. */
  datatype Read<+T> = Resolved(value: T) | Rejected(reason: string)

  /** The two ways the host can read a request body; reading is the only effect they have. */
  datatype BodySource = BodySource(json: Read<Value>, text: Read<string>)

  /** The request handed to a route handler. */
  datatype RouteRequest = RouteRequest(url: string, httpMethod: string, contentType: string, body: BodySource)

  /** A schema validator: `(data, schema) => boolean`. */
  type Validate = (Value, Value) -> bool

  /** The optional second argument of `send`. */
  datatype SendOptions = SendOptions(status: int, statusText: Option<string>)

  /** The descriptor handed to the host's `Cookie` constructor. */
  datatype CookieInit = CookieInit(name: string, value: string, attributes: map<string, string>)

  /** One call a handler makes on its response object. */
  datatype ResponseOp =
    | Send(data: Value, options: Option<SendOptions>)
    | Redirect(url: string, redirectStatus: Option<int>)
    | SetHeader(name: string, value: string)
    | SetCookie(cookie: CookieInit)

  /** A value thrown by a handler, or the reason its promise rejected. */
  datatype Fault = Http(error: HttpError) | Thrown(reason: Value)

  /**
   * One run of a handler: the response calls it made, in order, and whether it
   * then completed or threw (a returned value is discarded by the runtime).
   */
  datatype HandlerRun = HandlerRun(calls: seq<ResponseOp>, thrown: Option<Fault>)

  /** `RouteOptions`: one handler registered for one (url, method) pair. */
  datatype RouteOptions = RouteOptions(
    url: string,
    httpMethod: string,
    handler: RouteRequest -> HandlerRun,
    schema: Value)

  /** `Route`: the options registered for one URL, keyed by HTTP method. */
  type Route = map<string, RouteOptions>
}

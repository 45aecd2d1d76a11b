/**
 * The request runtime: decoding a request body by its content type, and the
 * per-request response builder whose final state becomes the response.
 */
module Runtime {
  import opened Wrappers
  import opened Js
  import opened FetchHeaders
  import opened Types

  // ---------------------------------------------------------------------------
  // Body decoding (`handleBody`)
  // ---------------------------------------------------------------------------

  const JsonContentType := "application/json"
  const TextContentType := "text/plain"

  const BadRequest := HttpError(400, "Bad Request")
  const SchemaMismatch := HttpError(400, "Request does not match schema")
  const UnsupportedMediaType := HttpError(415, "Unsupported media type")

  /** `schema && schemaValidator && !schemaValidator(data, schema)` */
  predicate SchemaRejects(data: Value, schema: Value, validator: Option<Validate>)
  {
    Truthy(schema) && validator.Some? && !validator.value(data, schema)
  }

  /** The step both content handlers run once the body has been read. */
  function CheckSchema(data: Value, schema: Value, validator: Option<Validate>): Result<Value, HttpError>
  {
    if SchemaRejects(data, schema, validator) then Failure(SchemaMismatch) else Success(data)
  }

  /** The `application/json` handler: any parse failure becomes a plain 400. */
  function DecodeJson(request: BodySource, schema: Value, validator: Option<Validate>): Result<Value, HttpError>
  {
    match request.json
    case Rejected(_) => Failure(BadRequest)
    case Resolved(data) => CheckSchema(data, schema, validator)
  }

  /** The `text/plain` handler: a read failure becomes a 400 carrying the failure's message. */
  function DecodeText(request: BodySource, schema: Value, validator: Option<Validate>): Result<Value, HttpError>
  {
    match request.text
    case Rejected(reason) => Failure(HttpError(400, reason))
    case Resolved(text) => CheckSchema(Str(text), schema, validator)
  }

  /**
   * `handleBody`, with the content-type table looked up by its own keys only:
   * exactly `application/json` and `text/plain` are decoded, and every other
   * content type is refused with 415 before the body is read.
   */
  function HandleBody(request: BodySource, contentType: string, schema: Value, validator: Option<Validate>)
    : (r: Result<Value, HttpError>)
    ensures contentType != JsonContentType && contentType != TextContentType ==> r == Failure(UnsupportedMediaType)
    ensures contentType == JsonContentType ==>
      match request.json
      case Rejected(_) => r == Failure(BadRequest)
      case Resolved(data) =>
        r == if SchemaRejects(data, schema, validator) then Failure(SchemaMismatch) else Success(data)
    ensures contentType == TextContentType ==>
      match request.text
      case Rejected(reason) => r == Failure(HttpError(400, reason))
      case Resolved(text) =>
        r == if SchemaRejects(Str(text), schema, validator) then Failure(SchemaMismatch) else Success(Str(text))
  {
    if contentType == JsonContentType then DecodeJson(request, schema, validator)
    else if contentType == TextContentType then DecodeText(request, schema, validator)
    else Failure(UnsupportedMediaType)
  }

  /**
   * The decoder reads only the body reader its content type names: two
   * requests that agree on that reader decode alike. With an unsupported
   * content type no reader is consulted at all.
   */
  lemma HandleBodyReadsOnlyItsReader(r1: BodySource, r2: BodySource, contentType: string, schema: Value,
                                     validator: Option<Validate>)
    requires contentType == JsonContentType ==> r1.json == r2.json
    requires contentType == TextContentType ==> r1.text == r2.text
    ensures HandleBody(r1, contentType, schema, validator) == HandleBody(r2, contentType, schema, validator)
  {
  }

  /** Without a truthy schema and a validator, a successful read is returned as decoded. */
  lemma NoSchemaNoValidation(request: BodySource, contentType: string, schema: Value, validator: Option<Validate>)
    requires !Truthy(schema) || validator.None?
    ensures contentType == JsonContentType && request.json.Resolved? ==>
      HandleBody(request, contentType, schema, validator) == Success(request.json.value)
    ensures contentType == TextContentType && request.text.Resolved? ==>
      HandleBody(request, contentType, schema, validator) == Success(Str(request.text.value))
  {
  }

  /** The property names every object literal inherits from `Object.prototype`. */
  const ObjectPrototypeKeys: set<string> := {
    "constructor", "hasOwnProperty", "isPrototypeOf", "propertyIsEnumerable",
    "toLocaleString", "toString", "valueOf", "__proto__",
    "__defineGetter__", "__defineSetter__", "__lookupGetter__", "__lookupSetter__"
  }

  /** Where the `in` test of `handleBody` sends a content type. */
  datatype Dispatch =
    | Decoded(result: Result<Value, HttpError>)
      /** The inherited `Object.prototype` member of that name is called in place of a content handler. */
    | InheritedMember(name: string)

  /**
   * `handleBody` as written: `contentType in contentHandlers` is also true for
   * the names the handler table inherits, so those are looked up and called
   * instead of being refused.
   */
  function HandleBodyAsWritten(request: BodySource, contentType: string, schema: Value, validator: Option<Validate>)
    : (d: Dispatch)
    ensures contentType in ObjectPrototypeKeys ==> d == InheritedMember(contentType)
    ensures contentType !in ObjectPrototypeKeys ==> d == Decoded(HandleBody(request, contentType, schema, validator))
  {
    if contentType == JsonContentType then Decoded(DecodeJson(request, schema, validator))
    else if contentType == TextContentType then Decoded(DecodeText(request, schema, validator))
    else if contentType in ObjectPrototypeKeys then InheritedMember(contentType)
    else Decoded(Failure(UnsupportedMediaType))
  }

  /** A request with `Content-Type: toString` is not refused with 415 by the code as written. */
  lemma InheritedContentTypeNotRejected(request: BodySource, schema: Value, validator: Option<Validate>)
    ensures HandleBody(request, "toString", schema, validator) == Failure(UnsupportedMediaType)
    ensures HandleBodyAsWritten(request, "toString", schema, validator) != Decoded(Failure(UnsupportedMediaType))
  {
  }

  // ---------------------------------------------------------------------------
  // The response builder (`handleRequest`)
  // ---------------------------------------------------------------------------

  /** `BodyInit`: a string body, or a non-string value handed to the host unchanged. */
  datatype BodyInit = Text(text: string) | Passthrough(value: Value)

  /** Everything `handleRequest` accumulates for one request. */
  datatype ResponseState = ResponseState(status: int, statusText: Option<string>, body: BodyInit, headers: HeaderMap)

  /** The state a fresh builder starts in. */
  const InitialState := ResponseState(200, Some(""), Text(""), map[])

  /** The response the host is given: `new Response(body, {headers, status, statusText})`. */
  datatype Response = Response(body: BodyInit, headers: HeaderMap, status: int, statusText: Option<string>)

  /** The host serialisers the builder calls: `JSON.stringify` and `new Cookie(init).toString()`. */
  datatype Codecs = Codecs(stringify: Value -> string, serializeCookie: CookieInit -> string)

  /** The `Content-Type` that `send` supplies for a value when none is set yet. */
  function DefaultContentType(data: Value): Option<string>
  {
    if TypeOf(data) == "object" then Some("application/json")
    else if TypeOf(data) == "string" then Some("text/plain")
    else None
  }

  /**
   * `send(data, options)`: objects are serialised, strings kept verbatim and
   * anything else handed through; a `Content-Type` is added only when absent;
   * status and status text change only when options are given.
   */
  function Sent(st: ResponseState, data: Value, options: Option<SendOptions>, codecs: Codecs): (st': ResponseState)
    ensures st'.body == match data
                        case Str(s) => Text(s)
                        case Undefined | Boolean(_) | Number(_) | Function | BigInt(_) | Symbol(_) =>
                          Passthrough(data)
                        case _ => Text(codecs.stringify(data))
    ensures Has(st.headers, "Content-Type") ==> st'.headers == st.headers
    ensures !Has(st.headers, "Content-Type") ==>
      Values(st'.headers, "Content-Type") == match data
                                             case Str(_) => ["text/plain"]
                                             case Undefined | Boolean(_) | Number(_) | Function | BigInt(_) | Symbol(_) =>
                                               []
                                             case _ => ["application/json"]
    ensures forall name :: Normalize(name) != Normalize("Content-Type") ==>
      Values(st'.headers, name) == Values(st.headers, name)
    ensures options.None? ==> st'.status == st.status && st'.statusText == st.statusText
    ensures options.Some? ==> st'.status == options.value.status && st'.statusText == options.value.statusText
    ensures WellFormed(st.headers) ==> WellFormed(st'.headers)
  {
    var body := if TypeOf(data) == "object" then Text(codecs.stringify(data))
                else if data.Str? then Text(data.s)
                else Passthrough(data);
    var headers := match DefaultContentType(data)
                   case Some(t) => if Has(st.headers, "Content-Type") then st.headers else Set(st.headers, "Content-Type", t)
                   case None => st.headers;
    match options
    case Some(o) => ResponseState(o.status, o.statusText, body, headers)
    case None => ResponseState(st.status, st.statusText, body, headers)
  }

  /** `redirectStatus || 302`: an absent or zero status means 302 Found. */
  function RedirectStatus(redirectStatus: Option<int>): int
  {
    match redirectStatus
    case Some(s) => if s != 0 then s else 302
    case None => 302
  }

  /** `redirect(url, redirectStatus)`: empty body, the redirect status and `Location: url`. */
  function Redirected(st: ResponseState, url: string, redirectStatus: Option<int>): (st': ResponseState)
    ensures st'.body == Text("")
    ensures redirectStatus.None? || redirectStatus == Some(0) ==> st'.status == 302
    ensures redirectStatus.Some? && redirectStatus.value != 0 ==> st'.status == redirectStatus.value
    ensures st'.statusText == st.statusText
    ensures Values(st'.headers, "Location") == [url]
    ensures forall name :: Normalize(name) != Normalize("Location") ==>
      Values(st'.headers, name) == Values(st.headers, name)
    ensures WellFormed(st.headers) ==> WellFormed(st'.headers)
  {
    ResponseState(RedirectStatus(redirectStatus), st.statusText, Text(""), Set(st.headers, "Location", url))
  }

  /** `setHeader(name, value)`: the header ends with this one value, whatever was there. */
  function HeaderSet(st: ResponseState, name: string, value: string): (st': ResponseState)
    ensures Values(st'.headers, name) == [value]
    ensures forall other :: Normalize(other) != Normalize(name) ==>
      Values(st'.headers, other) == Values(st.headers, other)
    ensures st'.status == st.status && st'.statusText == st.statusText && st'.body == st.body
    ensures WellFormed(st.headers) ==> WellFormed(st'.headers)
  {
    st.(headers := Set(st.headers, name, value))
  }

  /** `setCookie(init)`: one more `Set-Cookie` value after those already there. */
  function CookieSet(st: ResponseState, cookie: CookieInit, codecs: Codecs): (st': ResponseState)
    ensures Values(st'.headers, "Set-Cookie") == Values(st.headers, "Set-Cookie") + [codecs.serializeCookie(cookie)]
    ensures forall other :: Normalize(other) != Normalize("Set-Cookie") ==>
      Values(st'.headers, other) == Values(st.headers, other)
    ensures st'.status == st.status && st'.statusText == st.statusText && st'.body == st.body
    ensures WellFormed(st.headers) ==> WellFormed(st'.headers)
  {
    st.(headers := Append(st.headers, "Set-Cookie", codecs.serializeCookie(cookie)))
  }

  /** The effect of one call on the response object. */
  function Step(st: ResponseState, op: ResponseOp, codecs: Codecs): ResponseState
  {
    match op
    case Send(data, options) => Sent(st, data, options, codecs)
    case Redirect(url, redirectStatus) => Redirected(st, url, redirectStatus)
    case SetHeader(name, value) => HeaderSet(st, name, value)
    case SetCookie(cookie) => CookieSet(st, cookie, codecs)
  }

  /** The state after a handler made the given calls, in order. */
  function Run(st: ResponseState, ops: seq<ResponseOp>, codecs: Codecs): ResponseState
    decreases |ops|
  {
    if ops == [] then st else Step(Run(st, ops[..|ops| - 1], codecs), ops[|ops| - 1], codecs)
  }

  /** The response built from a final state. */
  function ToResponse(st: ResponseState): Response
  {
    Response(st.body, st.headers, st.status, st.statusText)
  }

  /** The three header names the builder writes by itself are stored under distinct keys. */
  lemma BuilderHeaderKeysDistinct()
    ensures Normalize("Content-Type") != Normalize("Location")
    ensures Normalize("Content-Type") != Normalize("Set-Cookie")
    ensures Normalize("Location") != Normalize("Set-Cookie")
  {
  }

  /** Whatever the handler does, every stored header name is normalized and has a value. */
  lemma {:induction false} RunKeepsHeadersWellFormed(st: ResponseState, ops: seq<ResponseOp>, codecs: Codecs)
    requires WellFormed(st.headers)
    ensures WellFormed(Run(st, ops, codecs).headers)
    decreases |ops|
  {
    if ops != [] {
      RunKeepsHeadersWellFormed(st, ops[..|ops| - 1], codecs);
    }
  }

  /** A call of `setHeader` whose name is `Content-Type` in any letter case. */
  predicate SetsContentType(op: ResponseOp)
  {
    op.SetHeader? && Normalize(op.name) == Normalize("Content-Type")
  }

  /**
   * A `Content-Type` already present survives every later `send`, `redirect`
   * and `setCookie`: only an explicit `setHeader('Content-Type', ...)` replaces it.
   */
  lemma {:induction false} ContentTypeSurvivesSends(st: ResponseState, ops: seq<ResponseOp>, codecs: Codecs)
    requires WellFormed(st.headers) && Has(st.headers, "Content-Type")
    requires forall i :: 0 <= i < |ops| ==> !SetsContentType(ops[i])
    ensures Values(Run(st, ops, codecs).headers, "Content-Type") == Values(st.headers, "Content-Type")
    decreases |ops|
  {
    if ops != [] {
      var prefix := ops[..|ops| - 1];
      ContentTypeSurvivesSends(st, prefix, codecs);
      RunKeepsHeadersWellFormed(st, prefix, codecs);
      BuilderHeaderKeysDistinct();
      var mid := Run(st, prefix, codecs);
      assert Values(mid.headers, "Content-Type") != [];
      assert !SetsContentType(ops[|ops| - 1]);
    }
  }

  /** `setHeader('Content-Type', v)` before `send` is never overridden by it. */
  lemma ExplicitContentTypeBeforeSend(st: ResponseState, name: string, value: string, data: Value,
                                      options: Option<SendOptions>, codecs: Codecs)
    requires Normalize(name) == Normalize("Content-Type")
    ensures Values(Sent(HeaderSet(st, name, value), data, options, codecs).headers, "Content-Type") == [value]
  {
  }

  /** The serialised cookies of the `setCookie` calls among `ops`, in call order. */
  function SerializedCookies(ops: seq<ResponseOp>, codecs: Codecs): seq<string>
    decreases |ops|
  {
    if ops == [] then []
    else
      var last := ops[|ops| - 1];
      SerializedCookies(ops[..|ops| - 1], codecs)
        + if last.SetCookie? then [codecs.serializeCookie(last.cookie)] else []
  }

  /** A call of `setHeader` whose name is `Set-Cookie` in any letter case. */
  predicate SetsCookieHeader(op: ResponseOp)
  {
    op.SetHeader? && Normalize(op.name) == Normalize("Set-Cookie")
  }

  /**
   * Cookies accumulate: unless `setHeader` replaces `Set-Cookie` itself, the
   * response carries every earlier cookie followed by each `setCookie` in order.
   */
  lemma {:induction false} CookiesAccumulate(st: ResponseState, ops: seq<ResponseOp>, codecs: Codecs)
    requires forall i :: 0 <= i < |ops| ==> !SetsCookieHeader(ops[i])
    ensures Values(Run(st, ops, codecs).headers, "Set-Cookie")
         == Values(st.headers, "Set-Cookie") + SerializedCookies(ops, codecs)
    decreases |ops|
  {
    if ops != [] {
      var prefix := ops[..|ops| - 1];
      CookiesAccumulate(st, prefix, codecs);
      BuilderHeaderKeysDistinct();
      assert !SetsCookieHeader(ops[|ops| - 1]);
    }
  }

  /** A call that may change the status: `redirect`, or `send` with options. */
  predicate SetsStatus(op: ResponseOp)
  {
    op.Redirect? || (op.Send? && op.options.Some?)
  }

  /** Status and status text change only through `redirect` or `send` with options. */
  lemma {:induction false} StatusKeptWithoutStatusCalls(st: ResponseState, ops: seq<ResponseOp>, codecs: Codecs)
    requires forall i :: 0 <= i < |ops| ==> !SetsStatus(ops[i])
    ensures Run(st, ops, codecs).status == st.status
    ensures Run(st, ops, codecs).statusText == st.statusText
    decreases |ops|
  {
    if ops != [] {
      StatusKeptWithoutStatusCalls(st, ops[..|ops| - 1], codecs);
      assert !SetsStatus(ops[|ops| - 1]);
    }
  }

  /** The body changes only through `send` and `redirect`. */
  lemma {:induction false} BodyKeptWithoutSendOrRedirect(st: ResponseState, ops: seq<ResponseOp>, codecs: Codecs)
    requires forall i :: 0 <= i < |ops| ==> !ops[i].Send? && !ops[i].Redirect?
    ensures Run(st, ops, codecs).body == st.body
    decreases |ops|
  {
    if ops != [] {
      BodyKeptWithoutSendOrRedirect(st, ops[..|ops| - 1], codecs);
      assert !ops[|ops| - 1].Send?;
    }
  }

  /**
   * The mutable state of one `handleRequest` call and the four closures of the
   * response object handed to the route handler.
   */
  class ResponseBuilder {
    var status: int
    var statusText: Option<string>
    var responseBody: BodyInit
    var responseHeaders: HeaderMap
    const codecs: Codecs

    ghost predicate Valid()
      reads this
    {
      WellFormed(responseHeaders)
    }

    function State(): ResponseState
      reads this
    {
      ResponseState(status, statusText, responseBody, responseHeaders)
    }

    constructor (codecs: Codecs)
      ensures Valid() && State() == InitialState && this.codecs == codecs
    {
      status := 200;
      statusText := Some("");
      responseBody := Text("");
      responseHeaders := map[];
      this.codecs := codecs;
    }

    method Send(data: Value, options: Option<SendOptions>)
      requires Valid()
      modifies this
      ensures Valid() && State() == Sent(old(State()), data, options, codecs)
    {
      if TypeOf(data) == "object" {
        if !Has(responseHeaders, "Content-Type") {
          responseHeaders := Set(responseHeaders, "Content-Type", "application/json");
        }
        responseBody := Text(codecs.stringify(data));
      } else if TypeOf(data) == "string" {
        if !Has(responseHeaders, "Content-Type") {
          responseHeaders := Set(responseHeaders, "Content-Type", "text/plain");
        }
        responseBody := Text(data.s);
      } else {
        responseBody := Passthrough(data);
      }
      if options.Some? {
        status := options.value.status;
        statusText := options.value.statusText;
      }
    }

    method Redirect(url: string, redirectStatus: Option<int>)
      requires Valid()
      modifies this
      ensures Valid() && State() == Redirected(old(State()), url, redirectStatus)
    {
      responseBody := Text("");
      status := RedirectStatus(redirectStatus);
      responseHeaders := Set(responseHeaders, "Location", url);
    }

    method SetHeader(name: string, value: string)
      requires Valid()
      modifies this
      ensures Valid() && State() == HeaderSet(old(State()), name, value)
    {
      responseHeaders := Set(responseHeaders, name, value);
    }

    method SetCookie(cookie: CookieInit)
      requires Valid()
      modifies this
      ensures Valid() && State() == CookieSet(old(State()), cookie, codecs)
    {
      responseHeaders := Append(responseHeaders, "Set-Cookie", codecs.serializeCookie(cookie));
    }
  }

  /**
   * `handleRequest`: a fresh builder, the handler's calls on it, then the
   * response built from the state they leave. A handler that throws, or whose
   * promise rejects, makes the call fail with exactly that fault; nothing
   * translates it. `Failure(fault)` stands both for a synchronous throw out of
   * `handleRequest` (the handler is called before any promise exists) and for
   * a rejection of the promise it returns; the model does not tell them apart.
   */
  method HandleRequest(routeRequest: RouteRequest, routeOptions: RouteOptions, codecs: Codecs)
    returns (r: Result<Response, Fault>)
    ensures var run := routeOptions.handler(routeRequest);
      r == match run.thrown
           case Some(fault) => Failure(fault)
           case None => Success(ToResponse(Run(InitialState, run.calls, codecs)))
    ensures r.Success? ==> WellFormed(r.value.headers)
  {
    var builder := new ResponseBuilder(codecs);
    var run := routeOptions.handler(routeRequest);
    var i := 0;
    while i < |run.calls|
      invariant 0 <= i <= |run.calls|
      invariant builder.Valid() && builder.codecs == codecs
      invariant builder.State() == Run(InitialState, run.calls[..i], codecs)
    {
      assert run.calls[..i + 1][..i] == run.calls[..i];
      match run.calls[i] {
        case Send(data, options) => builder.Send(data, options);
        case Redirect(url, redirectStatus) => builder.Redirect(url, redirectStatus);
        case SetHeader(name, value) => builder.SetHeader(name, value);
        case SetCookie(cookie) => builder.SetCookie(cookie);
      }
      i := i + 1;
    }
    assert run.calls[..i] == run.calls;
    match run.thrown
    case Some(fault) =>
      r := Failure(fault);
    case None =>
      r := Success(Response(builder.responseBody, builder.responseHeaders, builder.status, builder.statusText));
  }
}

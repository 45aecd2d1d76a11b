# bun-crumb request runtime, modelled in Dafny

This project models the core of bun-crumb, a request layer in front of Bun's
HTTP server, and proves properties of that model:

- **Body decoding** (`handleBody`): the request's `Content-Type` picks a
  content handler. `application/json` parses the body, `text/plain` reads it
  as text, and every other type is refused with
  `HttpError(415, 'Unsupported media type')`, except names inherited from
  `Object.prototype` (see "## Findings"). A truthy schema together with a
  validator that rejects the decoded value gives
  `HttpError(400, 'Request does not match schema')`.
- **The response builder** (`handleRequest`): per-request state (status,
  status text, body, a header multimap) changed by `send`, `redirect`,
  `setHeader` and `setCookie`. When the handler finishes, the response is
  built from that state.
- **The route registry** (`_routes`, `createRoute`) and its preparation
  (`prepareRoute`, `prepareRoutes`) into a URL → method → callback table.

Modules, leaf first:

- `Wrappers` (`wrappers.dfy`): `Option` and `Result`.
- `Js` (`js.dfy`): JavaScript values, with `typeof` and truthiness.
- `FetchHeaders` (`headers.dfy`): the Fetch `Headers` multimap. Names are
  stored in ASCII lower case, and `set` and `append` behave as in Fetch.
- `Types` (`types.dfy`): `HttpError`, route options and the handler model.
- `Runtime` (`runtime.dfy`): `handleBody` and `handleRequest`.
- `Server` (`server.dfy`): the registry class and route preparation.
- `Route` (`route.dfy`): `createRoute`.

Host calls are inputs:

- `request.json()` and `request.text()` are `Read` values: what the promise
  settles to.
- The schema validator is an optional function `(data, schema) -> bool`.
- `JSON.stringify` and `new Cookie(init).toString()` are the two functions of
  a `Codecs` value.
- `wrapRouteCallback` is any function `wrap: RouteOptions -> W`.
- A route handler is a function from the request to a `HandlerRun`: the
  calls it made on its response object, in order, and what it threw, if
  anything.

The response builder is the class `Runtime.ResponseBuilder`. Each method is
proved against a pure state function (`Sent`, `Redirected`, `HeaderSet`,
`CookieSet`), and each method keeps the header invariant `Valid()`.
`HandleRequest` runs the handler's calls on a fresh builder in a loop. It is
proved to return `Run(InitialState, calls)` as the response, or to fail
with exactly what the handler threw.

Notable behaviours of the code, which the model keeps:

- `createRoute` replaces the whole entry for a URL. Registering a second
  method for a URL drops the first one (`Route.SecondMethodReplacesFirst`).
- `prepareRoutes` only reads `_routes`. It never empties the registry.
- `handleRequest` has no `catch`. A thrown `HttpError` or any other failure
  reaches the caller unchanged. There is no 500 response and no
  error-to-response translation. `handleRequest` is not `async` and calls the
  handler while building its promise, so a synchronous throw escapes
  `handleRequest` itself, while a rejected handler promise rejects the
  returned promise. `Failure(fault)` stands for both.
- `send` tests `typeof data === 'object'`. Byte buffers (`Uint8Array`,
  `ArrayBuffer`) are objects, so they are passed through `JSON.stringify` and
  get `Content-Type: application/json`. Numbers, booleans, `undefined`,
  functions, bigints and symbols reach the pass-through branch.

## Model

| member | source | states |
|---|---|---|
| `Runtime.HandleBody` | src/runtime.ts:29-84 | Exactly `application/json` and `text/plain` are decoded. Any other content type gives 415 'Unsupported media type'. A failed JSON parse gives 400 'Bad Request'. A failed text read gives 400 with the failure's message. A truthy schema with a validator that returns false gives 400 'Request does not match schema'. Otherwise the decoded value is returned unchanged. |
| `Runtime.HandleBodyReadsOnlyItsReader` | src/runtime.ts:36-83 | The decoder uses only the reader its content type names. JSON decoding never reads text, text decoding never reads JSON, and an unsupported type reads neither. |
| `Runtime.NoSchemaNoValidation` | src/runtime.ts:43-77 | With a falsy schema or no validator, a successful read is returned as decoded, for both content types. |
| `Runtime.HandleBodyAsWritten` | src/runtime.ts:81-83 | The `in` test also accepts the names the handler table inherits from `Object.prototype`. Those names call the inherited member. All other content types behave as in `HandleBody`. |
| `Runtime.InheritedContentTypeNotRejected` | src/runtime.ts:81-83 | With `Content-Type: toString`, the code as written does not reject with 415. The corrected decoder does. |
| `Runtime.Sent` | src/runtime.ts:107-128 | `send`: strings are used verbatim. Objects (null, arrays, plain objects, byte buffers) are serialised. Numbers, booleans, undefined, functions, bigints and symbols are passed through. `Content-Type` becomes `text/plain` or `application/json` only when it was absent, and no other header changes. Status and status text change exactly when options are given. |
| `Runtime.Redirected` | src/runtime.ts:130-135 | `redirect`: the body is emptied. The status is the given one, or 302 when it is absent or 0. `Location` holds exactly the URL. Status text and all other headers are unchanged. |
| `Runtime.HeaderSet` | src/runtime.ts:137-139 | `setHeader`: the name ends with exactly the given value. Other headers, the status and the body are unchanged. |
| `Runtime.CookieSet` | src/runtime.ts:141-146 | `setCookie`: the serialised cookie is appended after the earlier `Set-Cookie` values. Nothing else changes. |
| `Runtime.ResponseBuilder.constructor` | src/runtime.ts:100-104 | A fresh builder has status 200, status text '', body '' and no headers. |
| `Runtime.ResponseBuilder.Send` | src/runtime.ts:107-128 | The `send` closure changes the builder's state exactly as `Sent` does and keeps the header invariant. |
| `Runtime.ResponseBuilder.Redirect` | src/runtime.ts:130-135 | The `redirect` closure changes the state exactly as `Redirected` does. |
| `Runtime.ResponseBuilder.SetHeader` | src/runtime.ts:137-139 | The `setHeader` closure changes the state exactly as `HeaderSet` does. |
| `Runtime.ResponseBuilder.SetCookie` | src/runtime.ts:141-146 | The `setCookie` closure changes the state exactly as `CookieSet` does. |
| `Runtime.HandleRequest` | src/runtime.ts:96-160 | If the handler completes, the response carries exactly the state its calls leave, starting from the initial state. Every header name of the response is lower-cased and has a value. If it throws or its promise rejects, the result is a failure carrying that same fault, untranslated; a synchronous throw and a rejection are not told apart. |
| `Runtime.RunKeepsHeadersWellFormed` | src/runtime.ts:104-146 | After any sequence of calls, every stored header name is lower-cased and has at least one value. |
| `Runtime.ContentTypeSurvivesSends` | src/runtime.ts:108-117 | Once present, `Content-Type` is unchanged by any later `send`, `redirect` or `setCookie`. Only `setHeader` on that name changes it. |
| `Runtime.ExplicitContentTypeBeforeSend` | src/runtime.ts:107-139 | `setHeader('Content-Type', v)` in any letter case before `send` leaves exactly `v`. |
| `Runtime.CookiesAccumulate` | src/runtime.ts:141-146 | Unless `setHeader` replaces `Set-Cookie`, the final `Set-Cookie` values are the earlier ones followed by every `setCookie`, in call order. |
| `Runtime.StatusKeptWithoutStatusCalls` | src/runtime.ts:124-133 | Status and status text change only through `redirect` or `send` with options. |
| `Runtime.BodyKeptWithoutSendOrRedirect` | src/runtime.ts:113-131 | The body changes only through `send` and `redirect`. |
| `FetchHeaders.Set` | src/runtime.ts:138 | `headers.set` leaves exactly one value under the name, compared case-insensitively. Every other name is unchanged. |
| `FetchHeaders.Append` | src/runtime.ts:142-145 | `headers.append` adds the value after the existing ones. Every other name is unchanged. |
| `Server.PrepareRoute` | src/server.ts:28-40 | The prepared route has exactly the route's method keys, and each entry is the wrapped options of that method. |
| `Server.RouteRegistry.PrepareRoutes` | src/server.ts:42-50 | The table's keys are exactly the registry's URLs, and each URL's entry is its prepared route. It reads the registry without changing it, so preparing twice gives the same table. |
| `Server.RouteRegistry.constructor` | src/server.ts:20 | `_routes` starts empty. |
| `Server.EmptyRegistryPreparesEmpty` | src/server.ts:42-50 | An empty registry prepares to an empty table. |
| `Route.WithRoute` | src/route.ts:7-9 | After registration the URL maps to exactly the route's method, and that method maps to the route. The key set becomes the old keys plus the URL, and every other URL is unchanged. |
| `Route.CreateRoute` | src/route.ts:7-9 | `createRoute` updates the registry exactly as `WithRoute` says. |
| `Route.WithRouteIdempotent` | src/route.ts:8 | Registering the same route twice is the same as registering it once. |
| `Route.SecondMethodReplacesFirst` | src/route.ts:8 | After two registrations for one URL with different methods, only the later method is prepared for that URL. |

## Findings

| source | as written | input that shows it | evidently intended | confidence | as-written member | corrected member |
|---|---|---|---|---|---|---|
| src/runtime.ts:81-83 | `contentType in contentHandlers` is also true for names the object literal inherits from `Object.prototype`. The inherited member is then called with the request instead of the call being rejected. | a request with `Content-Type: toString` whose handler reads the body: `Object.prototype.toString` returns a string, not the 415 rejection, and no schema check runs | every content type other than the table's two own keys is refused with 415 'Unsupported media type' | high, not executed | `Runtime.InheritedContentTypeNotRejected` | `Runtime.HandleBody` |

## Left out

- `listen` (src/server.ts:52-60) hands the table to Bun's `serve`. This is host I/O with no logic.
- Promises and `await` are not modelled. A handler is the list of response calls it made plus what it threw. `Runtime.HandleRequest` returns `Failure(fault)` both when the handler throws synchronously (then `handleRequest` itself throws and returns no promise) and when the handler's promise rejects (then the returned promise rejects); the model does not tell the two apart.
- src/runtime.ts, src/server.ts and src/route.ts do not build the request wrapper, parse the query string or default `Content-Type`; the code that does is not modelled.
- The source file of the `HttpError` class (src/errors/HttpError.ts) is not among the modelled files; an `HttpError` is represented as a status and a message. For a failed text read, the rejection reason is taken as the message string.
- `Runtime.HandleBodyAsWritten`: it does not model what each inherited `Object.prototype` member returns or throws. It only records that such a member is called in place of a content handler.
- `JSON.stringify` and `Cookie` serialisation are opaque functions. A `JSON.stringify` that throws (cyclic data, or a bigint inside the data) is not modelled: the stringify function is total.
- JavaScript numbers are Dafny reals, so `NaN` (falsy) and ±Infinity are not represented. Redirect statuses and send statuses are integers.
- A validator that throws, or that returns a truthy or falsy non-boolean value, is not modelled. Validators are total boolean functions.
- The checks that the host's `Response` constructor and `Headers` make are not modelled. These are: the status range, null-body statuses, header name and value validity, and value whitespace trimming.
- Header iteration order is not modelled. Fetch sorts header names; the model keeps a map from name to values and preserves order only within one name.
- `wrapRouteCallback` is a stub that answers `Response.json()`. Its body is not modelled; preparation is proved for every wrapping function.
- `Server.PrepareRoute`, `Server.RouteRegistry.PrepareRoutes`: the prepared tables are plain maps. A URL or method named `__proto__` would set a JavaScript object's prototype instead of adding a key; this is not modelled.
- The insertion order of `_routes` and of `Object.entries` is not modelled. Keys are unique, so the order does not change the prepared table; the model visits keys in any order.

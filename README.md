# Request tracing and header propagation — a Dafny model

This project models the two NestJS middlewares of `nest-common-helper`:

* **PropagationMiddleware** picks the header mapping of an inbound request, according
  to its transport, and runs the rest of the pipeline with `{headers}` as the current
  value of the propagation context store.
* **TraceMiddleware** describes an inbound request (type, url, body, and for HTTP
  method, ip, referer and user agent). It then resolves the request's correlation
  identifier `x-request-id`: it reuses one the request carries, or mints one and, for
  HTTP and WebSocket, writes it back into the request. For HTTP it also sets the
  identifier on the response. Finally it runs the next stage inside the trace context
  store's scope `{requestId}`. It logs "request in" before the stage and "request out"
  with the elapsed milliseconds on success. On failure it replaces `error.meta` with
  `{resTime, requestId}` and forwards the error to `next`.

An inbound value is one of three shapes, told apart structurally, first match wins:
* a header object together with a `get` accessor is an Express HTTP request;
* else a `handshake` makes it a socket.io-style WebSocket client;
* else a `getMap` accessor makes it an RPC context;
* anything else is unknown.

Modules, one file each:

| file | module | contents |
|---|---|---|
| wrappers.dfy | `Wrappers` | `Option`, for properties that may be absent |
| decimal.dfy | `Decimal` | BigInt truncating division and decimal `toString`, with read-back and injectivity proofs |
| transport.dfy | `Transport` | `Request` and `Response` classes, payload/handshake/route values, JavaScript truthiness of strings, `Classify`, `RequestMetadata` |
| context.dfy | `Context` | the two ambient scope slots and the record of observable effects (`Runtime`), error objects and their `ErrorMeta` |
| ids.dfy | `Ids` | the fresh-identifier supply standing in for `uuid()` |
| propagation.dfy | `Propagation` | the propagation middleware |
| trace.dfy | `Trace` | the trace middleware |

How the environment is modelled:
* `uuid()` becomes `Ids.IdSupply.Mint`, a counter whose n-th identifier is `Ids.IdOf(n)`.
  Identifiers it hands out never repeat (`Ids.IdOfInjective`).
* `process.hrtime.bigint()` becomes integer parameters: the start time of `use`, and the
  clock reading at each point where the next stage signals back.
* The logger and the calls of `next` become `Context.Effect`s appended to
  `Runtime.events`. Each one records the two scope values current when it happened.
* `store.run(value, k)` is modelled as: set the store's current value, run k, put the
  previous value back.
* The next stage is a `Trace.Stage`. It either never calls the wrapped continuation,
  or calls it (with or without an error), or throws before calling it, or calls it
  and then throws.

Both source files repeat the same three classification tests. The model states them
once, as `Transport.Classify`, and both middlewares dispatch on it.
`getRequestId` uses a different first test: a header object together with a
*response*. The model keeps that test as `Trace.IdRoute`, and
`Trace.IdRouteAgreesWithClassify` states exactly when the two tests agree.

Points where the code behaves other than one might expect, and the model follows the code:
* `error.meta` is replaced as a whole, so an earlier `meta` is discarded. Other
  properties of the error are kept.
* HTTP header propagation uses the request's header object.
* The RPC branch's inner test for a missing `getMap` cannot succeed, because the
  enclosing test already requires `getMap`.

## Model

| member | source | states |
|---|---|---|
| `Transport.Lookup` | packages/nest-common-helper/src/trace/trace.middleware.ts:122 | a header property read is present exactly when the key is, with that key's value |
| `Transport.PayloadHeaders` | packages/nest-common-helper/src/trace/trace.middleware.ts:140-142 | a payload's `headers` object, or an empty object put in its place |
| `Transport.Classify` | packages/nest-common-helper/src/trace/trace.middleware.ts:94-111 | first match wins: headers with `get` is HTTP, else a handshake is WebSocket, else `getMap` is RPC, else unknown; the same tests as propagation.middleware.ts:56-73 |
| `Transport.Truthy` | packages/nest-common-helper/src/trace/trace.middleware.ts:122-161 | JavaScript truthiness of a header property read: the value is present and is not the empty string; the guard of the HTTP, WebSocket and RPC id branches (lines 122, 146, 161) |
| `Transport.Response.SetHeader` | packages/nest-common-helper/src/trace/trace.middleware.ts:127 | `setHeader` sets or replaces exactly one outgoing header |
| `Propagation.GetHttpHeaders` | packages/nest-common-helper/src/propagation/propagation.middleware.ts:16-18 | HTTP propagates the request's header object unchanged |
| `Propagation.HandshakeHeaders` | packages/nest-common-helper/src/propagation/propagation.middleware.ts:27 | the handshake's headers, or `{}` when the handshake or its headers are missing |
| `Propagation.GetWsHeaders` | packages/nest-common-helper/src/propagation/propagation.middleware.ts:26-37 | with payload headers: the keys are the union of handshake and payload headers, and the payload's value wins on a clash; without them: exactly the handshake headers (or `{}`) |
| `Propagation.GetRpcHeaders` | packages/nest-common-helper/src/propagation/propagation.middleware.ts:44-48 | the `getMap()` result, or `{}` without `getMap` |
| `Propagation.GetHeaders` | packages/nest-common-helper/src/propagation/propagation.middleware.ts:56-73 | dispatch by the shared classification; an RPC request always has `getMap`, so the `{}` fallback of the RPC helper is never used; an unknown shape gives `{}` |
| `Propagation.Use` | packages/nest-common-helper/src/propagation/propagation.middleware.ts:82-90 | `next()` is called once with `{headers: GetHeaders(request)}` as the current propagation scope; both scopes are restored afterwards; the request is not modified (it is outside the frame) |
| `Trace.GetRequestUrl` | packages/nest-common-helper/src/trace/trace.middleware.ts:22-33 | the route's path when a route exists, else a non-empty event name, else exactly "unknown" |
| `Trace.GetHttpRequestMetadata` | packages/nest-common-helper/src/trace/trace.middleware.ts:40-53 | the HTTP record carries the method, url, body, ip, ip chain, and the `referer` and `user-agent` headers as read |
| `Trace.GetWsRequestMetadata` | packages/nest-common-helper/src/trace/trace.middleware.ts:61-69 | the WebSocket record carries the url and the payload as body |
| `Trace.GetRpcRequestMetadata` | packages/nest-common-helper/src/trace/trace.middleware.ts:77-87 | the RPC record carries the url, the payload, and the `getMap()` result as `metadata` (absent without `getMap`) |
| `Trace.GetRequestMetadata` | packages/nest-common-helper/src/trace/trace.middleware.ts:94-111 | the record's `reqType` is the classification's; the empty record exactly for unknown shapes; every other record carries the request url; RPC metadata is always present |
| `Trace.IdRoute` | packages/nest-common-helper/src/trace/trace.middleware.ts:121-164 | the branch `getRequestId` takes: headers with a response, else handshake, else `getMap`, else unknown |
| `Trace.IdRouteAgreesWithClassify` | packages/nest-common-helper/src/trace/trace.middleware.ts:121-133 | the id branch and the classifier agree whenever a response is present exactly for the requests with `get`; headers without `get` but with a response take the HTTP id branch; headers with `get` but no response do not |
| `Trace.ResolveHttpId` | packages/nest-common-helper/src/trace/trace.middleware.ts:121-130 | a truthy existing id is returned unchanged; otherwise the new id is written under `x-request-id`; other header keys keep their values; the id is always set on the response |
| `Trace.ResolveWsId` | packages/nest-common-helper/src/trace/trace.middleware.ts:133-152 | without a payload: a new id, no change; with one: `headers` is created if missing, an existing truthy id is reused or the new one stored; other payload headers and content unchanged |
| `Trace.ResolveRpcId` | packages/nest-common-helper/src/trace/trace.middleware.ts:155-162 | a truthy id from `getMap()`, else the new id; nothing is written back |
| `Trace.ResolveId` | packages/nest-common-helper/src/trace/trace.middleware.ts:119-165 | the resolved id is always truthy; per branch, the new id is used exactly when no truthy id is found (in the request's headers for HTTP, in the payload's headers for WebSocket, or when there is no payload; in the `getMap()` result for RPC), and always for an unknown shape; only HTTP echoes to the response; only HTTP touches the request's headers |
| `Trace.ResolveIdIdempotent` | packages/nest-common-helper/src/trace/trace.middleware.ts:122-151 | resolving again on an HTTP request or a WebSocket request with payload returns the same id, mints nothing and changes nothing |
| `Trace.ResolveIdMintsEachTime` | packages/nest-common-helper/src/trace/trace.middleware.ts:136-164 | WebSocket without payload, RPC without an id, and unknown shapes mint on every call, so successive ids differ |
| `Trace.GetRequestId` | packages/nest-common-helper/src/trace/trace.middleware.ts:119-165 | id, new request contents, response headers and number of ids minted are exactly those of `ResolveId` with the supply's next id |
| `Trace.ResTime` | packages/nest-common-helper/src/trace/trace.middleware.ts:172-177 | `getResTime`: the nanosecond difference divided by 1000 twice with BigInt division, rendered in decimal and suffixed by "ms"; what the result is, is stated by `Trace.ResTimeRendering` |
| `Trace.ResTimeRendering` | packages/nest-common-helper/src/trace/trace.middleware.ts:172-177 | for `end >= start`: the whole milliseconds `(end-start)/10^6` in decimal followed by "ms", of the form digits+"ms" and reading back as that number; for `end < start`: the quotient by 10^6 truncated toward zero, with a minus sign only when that quotient is negative (a clock that went back by less than a millisecond gives "0ms") |
| `Trace.WrappedEffects` | packages/nest-common-helper/src/trace/trace.middleware.ts:195-208 | the effects of `wrappedNext(error)`: `next(error)` alone with an error, else "request out" with the duration followed by `next()`; counted by `Trace.WrappedEffectsCounts` |
| `Trace.StageEffects` | packages/nest-common-helper/src/trace/trace.middleware.ts:195-219 | the effects of the next stage's part of the cycle, for each way the stage can behave; the `catch` block adds one `next(thrown)` after whatever the continuation recorded |
| `Trace.TraceEffects` | packages/nest-common-helper/src/trace/trace.middleware.ts:189-219 | the effects of one cycle: "request in" with the metadata, the start of the next stage, then the stage's part; its properties are `Trace.TraceLogsInFirst`, `Trace.TraceSuccess`, `Trace.TraceFailure`, `Trace.TracePending` and `Trace.TraceContinueThenThrow` |
| `Trace.Stamped` | packages/nest-common-helper/src/trace/trace.middleware.ts:195-219 | each error handed to the continuation or thrown carries `meta` `{resTime, requestId}` with the elapsed time at which it was last stamped (lines 197-200 and 213-216) and the request's id |
| `Trace.WrappedEffectsCounts` | packages/nest-common-helper/src/trace/trace.middleware.ts:195-208 | one call of the continuation reaches `next` exactly once, with its error, and logs "request out" only when there is no error |
| `Trace.TraceLogsInFirst` | packages/nest-common-helper/src/trace/trace.middleware.ts:189-192 | every cycle logs "request in" exactly once, with the metadata, before the next stage starts |
| `Trace.TraceSuccess` | packages/nest-common-helper/src/trace/trace.middleware.ts:203-207 | success logs exactly one "request out" with its duration, followed by exactly one `next()` with no error |
| `Trace.TraceFailure` | packages/nest-common-helper/src/trace/trace.middleware.ts:195-219 | an error handed to the continuation or thrown reaches `next` exactly once, and no "request out" is logged |
| `Trace.TracePending` | packages/nest-common-helper/src/trace/trace.middleware.ts:211 | a stage that never calls back produces neither "request out" nor a call of `next` |
| `Trace.TraceContinueThenThrow` | packages/nest-common-helper/src/trace/trace.middleware.ts:210-219 | a stage that calls back and then throws reaches `next` twice: first with what it handed back, then with the thrown error |
| `Trace.WrappedThenThrownCounts` | packages/nest-common-helper/src/trace/trace.middleware.ts:195-219 | the continuation's effects followed by the `catch` block's `next(thrown)` call `next` twice, first with the continuation's error, and log "request out" only when that error is absent |
| `Trace.ForwardError` | packages/nest-common-helper/src/trace/trace.middleware.ts:196-202 | `error.meta` becomes `{resTime, requestId}`, other error properties are unchanged, and `next(error)` is recorded once |
| `Trace.WrappedNext` | packages/nest-common-helper/src/trace/trace.middleware.ts:195-208 | on error: stamp and forward; otherwise "request out" with the duration, then `next()` |
| `Trace.RunStage` | packages/nest-common-helper/src/trace/trace.middleware.ts:210-219 | the stage's effects are recorded in order; each error handed back or thrown carries the elapsed time at its last stamping and the request id; scopes untouched |
| `Trace.LogIn` | packages/nest-common-helper/src/trace/trace.middleware.ts:192-211 | records "request in" with the metadata, then the start of the next stage, under the current scopes, which it leaves alone |
| `Trace.Cycle` | packages/nest-common-helper/src/trace/trace.middleware.ts:192-219 | the recorded effects are exactly those of `Trace.TraceEffects`, under the current scopes; stamped errors carry the request id; no other error property changes |
| `Trace.RunInTraceScope` | packages/nest-common-helper/src/trace/trace.middleware.ts:189-220 | every effect of the cycle is recorded with `{requestId}` as the trace scope; the previous trace scope is restored; the propagation scope is left alone |
| `Trace.Use` | packages/nest-common-helper/src/trace/trace.middleware.ts:185-221 | request, response and id supply change as `ResolveId` says; the recorded effects are the cycle's, under the scope of the resolved id; stamped errors carry that same id |
| `Decimal.NatToString` | packages/nest-common-helper/src/trace/trace.middleware.ts:176 | a non-negative BigInt renders as a non-empty string of digits, without leading zeros |
| `Decimal.DigitsValueOfNatToString` | packages/nest-common-helper/src/trace/trace.middleware.ts:176 | reading the digits back gives the number |
| `Decimal.NatToStringInjective` | packages/nest-common-helper/src/trace/trace.middleware.ts:176 | distinct numbers render differently |
| `Decimal.IntToString` | packages/nest-common-helper/src/trace/trace.middleware.ts:176 | a negative BigInt renders with a leading minus sign |
| `Decimal.TruncDiv` | packages/nest-common-helper/src/trace/trace.middleware.ts:174 | BigInt's `/` as a function on integers; its rounding is stated by `Decimal.TruncDivTowardZero` |
| `Decimal.TruncDivTowardZero` | packages/nest-common-helper/src/trace/trace.middleware.ts:174 | BigInt division truncates toward zero: the remainder is smaller than the divisor in magnitude, and is zero or has the sign of the dividend |
| `Decimal.NestedTruncDiv` | packages/nest-common-helper/src/trace/trace.middleware.ts:174 | dividing by 1000 twice equals dividing by 10^6, for either sign |
| `Context.Runtime.Emit` | packages/nest-common-helper/src/trace/trace.middleware.ts:192-218 | one log line or one call of `next` is appended to the record, tagged with the scope values current at that moment; the scopes are unchanged |
| `Ids.IdOf` | packages/nest-common-helper/src/trace/trace.middleware.ts:123 | a minted identifier is non-empty and hence truthy |
| `Ids.IdOfInjective` | packages/nest-common-helper/src/trace/trace.middleware.ts:147 | distinct mints give distinct identifiers |
| `Ids.IdSupply.Mint` | packages/nest-common-helper/src/trace/trace.middleware.ts:137 | hands out the next identifier and counts it |

## Left out

- The context stores' isolation across asynchronous continuations is not modelled. It is concurrency work of `AsyncLocalStorage`, and the stores' own files (`trace-context.js`, `propagation-context.js`) are not part of this model. A store's `run` is modelled as set, run, restore, on one thread of control.
- Aliasing of the propagated HTTP headers is not modelled. For HTTP, the propagation scope holds a reference to the request's header object, so an `x-request-id` the tracer writes later is visible through it. The model's scope is a snapshot value.
- Aliasing of the logged body is not modelled. The "request in" record of a WebSocket request refers to the live payload, which `getRequestId` may modify just before the line is logged; the RPC branch writes nothing to the request. The model logs the payload as it was when the metadata was built.
- Identifier format is not modelled. `uuid()` is replaced by a counter-based supply; the random v4 format is not modelled.
- The logger (`@blastz/logger`) is not modelled. Its `child(...).trace(...)` calls are recorded as effects.
- Express and Nest dispatch is not modelled. How the framework treats `next(wrappedNext)` is outside the model: the model treats it as starting the next stage with the wrapped continuation, whose behaviour is a `Trace.Stage`.
- Some stage behaviours are not modelled: a stage that calls the continuation more than once, and a stage that calls back after `use` has returned.
- The promise returned by `next()` in the propagation middleware, and the awaiting of it, are not modelled.
- Header values are modelled as strings; Node's array-valued headers are not.
- A present object counts as truthy. A primitive payload or a primitive thrown value, on which setting a property fails, is not modelled.
- `getMap()` is assumed to return the same mapping each time the tracer calls it.
- The `ExceptionMeta` type comes from the exception module, which is not part of this model; `Context.ErrorMeta` stands for it.
- The build tooling (`packages/pkgx`, `tools/scripts/pkgx/index.mjs`) is not modelled: it is command-line wiring, shell calls and logging around external bundlers.

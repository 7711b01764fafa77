# HTTMCP dispatch and session correlation, in Dafny

This project models the core of the `HTTMCP` class of nchan-mcp-transport
(`typescript/src/index.ts`). The class serves the MCP JSON-RPC methods over
plain HTTP. Each call is a separate POST, and a session header ties the call
back to the client's session. The model covers:

- **Dispatch core** (`Dispatch.OnRequest`, for `_onrequest`). The method is
  looked up in an immutable handler map, falling back to the fallback handler.
  The handler gets a context with an unset abort signal and
  `params._meta.sessionId`. Every outcome ends as one fulfilled JSON-RPC
  response or one rejection: no handler, a result, a fault with a safe-integer
  code, a fault with any other code, a missing message, a thrown `null` or
  `undefined`, and an abort seen after the outcome.
- **Request normaliser** (`Normalizer.WithSessionId`, and the in-place update
  in `Server.HttMcp.HandleMcpRequest`). If `_meta` exists, the
  `X-MCP-Session-ID` header overwrites `params._meta.sessionId`. A missing
  header overwrites it with `undefined`. No `_meta` is ever created.
- **Route bodies**:
  - session start (the `X-Accel-Redirect` target);
  - `/endpoint` (publish only when the transport is exactly `"sse"` and the
    session id is non-empty; always 200 with an empty body);
  - `handleMcpRequest`: its catch block always answers 200 with code 0,
    `Internal server error: ${error}`, and `id: body?.id || null`;
  - `handleEmptyResponse`: always `{jsonrpc: "2.0", id: body?.id || "", result: {}}`.
- **Channel publisher** (`publishToChannel`). An unset or empty
  `publishServer` gives `false` and sends nothing. Otherwise it sends one POST
  to `${publishServer}/mcp/${name}/${channelId}` with the event header. Objects
  are JSON-serialised and strings are sent raw. The result is `true` exactly on
  status 200. A network error gives `false`.

JavaScript semantics are written out in module `Js`: truthiness for `||`,
nullishness for `??` and `?.`, and `Number.isSafeInteger`. A number is finite
(held exactly as a real), an infinity, or NaN. A safe integer is a finite
integral number within 2^53 - 1 of zero. Because `||` is used for ids, a
request id of `0` or `""` comes back as `""` from `/ping`
(`Server.EmptyResponseFalsyIds`) and as `null` from the catch block
(`Server.CaughtResponse`).

A few behaviours of the code are easy to miss; the model follows the code:

- `/endpoint` needs a non-empty session id, not just a present one.
- The message is kept whenever it is not `null` or `undefined`, even if it is
  not a string.
- A fallback handler, when registered, is called instead of answering
  "method not found".
- The normaliser changes the parsed body in place. It does not build a new
  envelope.
- A handler that fulfils with `undefined` produces a response that has
  neither `result` nor `error` on the wire. `Dispatch.FulfilledHasExactlyOneOutcome`
  proves this is the only way a fulfilled response can break the
  exactly-one rule.
- A thrown `null` or `undefined` makes the read of `error["code"]` throw.
  `_onrequest` then rejects whatever the abort flag says, and the catch block
  answers.

## Model

| member | source | states |
|---|---|---|
| `Js.SafeIntegerValue` | typescript/src/index.ts:124-125 | the code kept from a safe-integer fault is the integer that value denotes, and it lies within 2^53 - 1 of zero |
| `Js.SafeIntegerRange` | typescript/src/index.ts:124 | an integer's number value is a safe integer exactly when it lies within 2^53 - 1 of zero |
| `Js.OrSelects` | typescript/src/index.ts:173 | `a || b` keeps a truthy left operand and otherwise gives the right one |
| `Dispatch.Lookup` | typescript/src/index.ts:98 | a string method present in the map gives that handler; any other method, non-string ones included, gives the fallback (possibly none) |
| `Dispatch.FaultError` | typescript/src/index.ts:123-129 | the error code is the fault's code when that is a safe integer and InternalError (-32603) otherwise, always within the safe range; the message is the fault's message unless nullish, else "Internal error" |
| `Dispatch.OnRequest` | typescript/src/index.ts:96-145 | fulfilled responses carry "2.0" and the request id and never both result and error; an abort always rejects; no handler gives MethodNotFound / "Method not found"; a result, a fault and a nullish throw each give the stated response or rejection |
| `Dispatch.ContextCarriesMetaSessionId` | typescript/src/index.ts:105-108 | the handler's context has an unset signal and `params._meta.sessionId` as its session id, or undefined without `_meta` |
| `Dispatch.FulfilledHasExactlyOneOutcome` | typescript/src/index.ts:119-140 | a fulfilled response fails the exactly-one-of-result-and-error rule if and only if the handler found fulfilled with undefined |
| `Dispatch.InvalidCodeNeverLeaks` | typescript/src/index.ts:124-126 | a fault code that is not a safe integer never reaches the response; InternalError takes its place |
| `Dispatch.SafeCodePreserved` | typescript/src/index.ts:119-130 | a handler fault `{code, message}` with a safe-integer code is answered with exactly that code and message |
| `Normalizer.WithSessionId` | typescript/src/index.ts:149-153 | with `_meta` present the session id becomes the header value and nothing else changes; without `_meta` the request is unchanged and none is created |
| `Normalizer.WithSessionIdLastHeaderWins` | typescript/src/index.ts:151-153 | normalising again replaces the earlier header's session id, so normalising is idempotent |
| `Normalizer.MissingHeaderErasesSessionId` | typescript/src/index.ts:149-153 | without the header, a caller-supplied `_meta.sessionId` becomes undefined |
| `Normalizer.RpcRequest.constructor` | typescript/src/index.ts:150 | the mutable body object starts out holding the parsed request |
| `Server.Network.constructor` | typescript/src/index.ts:36-43 | the network starts with nothing sent and the given replies pending |
| `Server.Network.Fetch` | typescript/src/index.ts:36-43 | a fetch records exactly one POST and consumes the next reply, a network error when none is left |
| `Server.CaughtResponse` | typescript/src/index.ts:157-166 | the catch-block answer has code 0, "Internal server error: " plus the fault's text, exactly one outcome, and the id unless it is falsy (then null) |
| `Server.BodyOf` | typescript/src/index.ts:34 | the outbound body always carries the message; it is serialised exactly when `typeof` gives "object" (objects, arrays, null) |
| `Server.BodyOfCases` | typescript/src/index.ts:34 | strings, numbers and booleans are sent raw; objects and null are serialised |
| `Server.ShouldPublishCases` | typescript/src/index.ts:70 | no publish without a session id, with an empty one, without a transport header, or with any transport other than exactly "sse"; "sse" with a non-empty id publishes |
| `Server.EndpointPathIdentifiesSession` | typescript/src/index.ts:73 | distinct session ids are published distinct endpoint paths under one prefix |
| `Server.InternalPathIdentifiesSession` | typescript/src/index.ts:60 | distinct session ids get distinct internal redirect targets |
| `Server.ChannelUrlIdentifiesChannel` | typescript/src/index.ts:36 | distinct channel ids give distinct publish URLs for one server and name |
| `Server.HttMcp.constructor` | typescript/src/index.ts:19-25 | name and publish server are taken from the server info; a missing or empty apiPrefix becomes "" |
| `Server.HttMcp.Prefix` | typescript/src/index.ts:55 | the prefix is apiPrefix when non-empty, else `/mcp/${name}`, and never empty |
| `Server.HttMcp.PublishToChannel` | typescript/src/index.ts:27-50 | unconfigured: false and nothing sent; configured: exactly one POST to `${publishServer}/mcp/${name}/${channelId}` with the event header and the serialised or raw message, true exactly on status 200 |
| `Server.HttMcp.SessionStart` | typescript/src/index.ts:58-63 | 200, empty body, exactly the redirect header `/internal/${name}/${sessionId}` and buffering "no" |
| `Server.HttMcp.Endpoint` | typescript/src/index.ts:66-78 | always 200 and empty; publishes `${prefix}/${sessionId}` to channel sessionId under event "endpoint" exactly when the transport is "sse", the session id is non-empty and a publish server is set; otherwise the network is untouched |
| `Server.HttMcp.McpReply` | typescript/src/index.ts:147-168 | always 200 with a "2.0" envelope that never has both result and error; a missing body or any rejection is answered by the catch block; an abort always gives code 0 |
| `Server.HttMcp.HandleMcpRequest` | typescript/src/index.ts:147-168 | the body is normalised in place as WithSessionId says and the answer is McpReply of the original body |
| `Server.HttMcp.HandleEmptyResponse` | typescript/src/index.ts:170-176 | always 200 with a "2.0" envelope with result `{}` and no error; the id is the body's id when truthy, else "" |
| `Server.McpReplyEchoesId` | typescript/src/index.ts:135-161 | when dispatch fulfils, the answer echoes the request id exactly; when it rejects, the catch block answers with `id || null` |
| `Server.AbortedCallAnswer` | typescript/src/index.ts:131-166 | an aborted call is answered by the catch block with code 0 and the abort's text and the id or null, unless the handler threw null or undefined |
| `Server.AbortText` | typescript/src/index.ts:133-164 | the abort's answer reads "Internal server error: Error: Request was aborted" |
| `Server.UnknownMethodAnswer` | typescript/src/index.ts:113-118 | an unregistered method with no fallback is answered `{code: -32601, message: "Method not found"}` with the request's id and no result |
| `Server.HandlerSeesHeaderSessionId` | typescript/src/index.ts:105-153 | after normalisation the handler's context session id is the header's value when `_meta` exists, else undefined |
| `Server.EmptyResponseDependsOnlyOnId` | typescript/src/index.ts:170-176 | two bodies with the same id get the same answer, so repeating a ping gives the same response |
| `Server.EmptyResponseFalsyIds` | typescript/src/index.ts:173 | ids 0 and "" and a missing id all come back as ""; a truthy id is echoed |

## Left out

- Express routing, JSON body parsing and `res.status`/`res.setHeader`/`res.json` (lines 52-54, 81-93): each route's status, headers and body are modelled as an `HttpReply` value.
- The network, `fetch` internals and `console.error`: `fetch` is `Server.Network.Fetch`, which records the POST and returns the environment's next reply. Logging is left out.
- `randomUUID`: the fresh session id is a parameter of `SessionStart`.
- `JSON.stringify`: a serialised body is the symbolic `Serialized(value)`. The case where stringify throws (cyclic values, BigInt) is left out, since `Js.Value` has no such values.
- Promise scheduling and the commented-out abort-controller registry (lines 101-102, 143): dispatch is sequential. Whether the signal is set when the third stage runs is the input `abortedMeanwhile`. Nothing in the source sets it.
- The MCP SDK's handler registry and handlers: a handler is a total function from the request and context to an outcome. Side effects of handlers, and a handler that watches the signal change during the call, are left out.
- Aliasing: the body object is modelled as fields that are reassigned. The handler gets a value snapshot, not the shared object.
- A truthy primitive `_meta` (such as a number or a non-empty string) is left out: assigning `sessionId` to it throws in strict mode. A falsy `_meta` or a non-object `params` behaves like an absent one, which the model's `None` covers.
- An array body, and throwing getters on thrown fault objects, are left out.
- The default `event = "message"` of `publishToChannel` is left out: the only caller passes `"endpoint"`.
- The `app/` Python video-parse application and its HTTP helpers are not part of this model.
- How `fetch` turns a number or boolean message into text is left out: such a body stays `Raw(value)`.

/** JSON-RPC 2.0 envelopes as the adapter reads and writes them. */
module Rpc {
  import opened Wrappers
  import opened Js

  const Version: string := "2.0"

  /** `ErrorCode.MethodNotFound` of the MCP SDK. */
  const MethodNotFound: int := -32601
  /** `ErrorCode.InternalError` of the MCP SDK. */
  const InternalError: int := -32603

  /** `params._meta`: the session identifier and whatever else the caller put there. */
  datatype Meta = Meta(sessionId: Value, others: map<string, Value>)

  /** `params`: an optional `_meta` object and the method's own arguments. */
  datatype Params = Params(meta: Option<Meta>, others: map<string, Value>)

  /** A parsed request body. */
  datatype Request = Request(jsonrpc: Value, id: Value, methodName: Value, params: Option<Params>)

  /** `request.params?._meta` is an object. */
  predicate HasMeta(r: Request) {
    r.params.Some? && r.params.value.meta.Some?
  }

  /** `request.params?._meta?.sessionId` */
  function MetaSessionId(r: Request): Value {
    if HasMeta(r) then r.params.value.meta.value.sessionId else Undefined
  }

  datatype ErrorObject = ErrorObject(code: int, message: Value)

  /**
    A response envelope. A `result` of undefined is a property that
    JSON serialisation drops, so it is absent on the wire.
  */
  datatype Response = Response(jsonrpc: string, id: Value, result: Value, error: Option<ErrorObject>)

  predicate HasResult(r: Response) {
    r.result != Undefined
  }

  predicate HasError(r: Response) {
    r.error.Some?
  }

  /** The JSON-RPC wire invariant: exactly one of `result` and `error` is present. */
  predicate ExactlyOneOutcome(r: Response) {
    HasResult(r) != HasError(r)
  }
}

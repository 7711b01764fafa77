/**
  The request normaliser of `handleMcpRequest`: the `X-MCP-Session-ID`
  header overwrites `params._meta.sessionId` when, and only when, the request
  already has a `_meta` object.
*/
module Normalizer {
  import opened Wrappers
  import opened Js
  import opened Rpc

  /** `req.header(name)`: the header's text, or undefined when it is missing. */
  function HeaderValue(header: Option<string>): Value {
    if header.Some? then Str(header.value) else Undefined
  }

  /** The request after `if (request.params?._meta) request.params._meta.sessionId = sessionId`. */
  function WithSessionId(request: Request, header: Option<string>): (r: Request)
    ensures HasMeta(r) <==> HasMeta(request)
    ensures HasMeta(request) ==> MetaSessionId(r) == HeaderValue(header)
    ensures !HasMeta(request) ==> r == request
    ensures r.jsonrpc == request.jsonrpc && r.id == request.id && r.methodName == request.methodName
    ensures r.params.Some? <==> request.params.Some?
    ensures HasMeta(request) ==>
      && r.params.value.others == request.params.value.others
      && r.params.value.meta.value.others == request.params.value.meta.value.others
  {
    if HasMeta(request) then
      var params := request.params.value;
      request.(params := Some(params.(meta := Some(params.meta.value.(sessionId := HeaderValue(header))))))
    else
      request
  }

  /** Normalising twice with the same header is normalising once; a later header replaces an earlier one. */
  lemma WithSessionIdLastHeaderWins(request: Request, first: Option<string>, second: Option<string>)
    ensures WithSessionId(WithSessionId(request, first), second) == WithSessionId(request, second)
  {
  }

  /** Without a header, a request with `_meta` loses any session id the caller supplied. */
  lemma MissingHeaderErasesSessionId(request: Request)
    requires HasMeta(request)
    ensures MetaSessionId(WithSessionId(request, None)) == Undefined
  {
  }

  /** A parsed request body, an object whose properties the adapter assigns in place. */
  class RpcRequest {
    var jsonrpc: Value
    var id: Value
    var methodName: Value
    var params: Option<Params>

    /** The body's current properties as a value. */
    function Snapshot(): Request
      reads this
    {
      Request(jsonrpc, id, methodName, params)
    }

    constructor (body: Request)
      ensures Snapshot() == body
    {
      jsonrpc, id, methodName, params := body.jsonrpc, body.id, body.methodName, body.params;
    }
  }
}

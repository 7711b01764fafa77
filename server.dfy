/**
  The `HTTMCP` class: its configuration, the session-start and endpoint
  routes, the best-effort channel publisher, and the two POST handlers
  (`handleMcpRequest`, `handleEmptyResponse`). HTTP wiring is reduced to the
  status, headers and body each route produces; the outbound `fetch` goes
  through a `Network` object whose answers are given by the environment.
*/
module Server {
  import opened Wrappers
  import opened Js
  import opened Rpc
  import opened Dispatch
  import opened Normalizer

  /** The constructor's `serverInfo`, less the SDK's own fields. */
  datatype ServerInfo = ServerInfo(name: string, publishServer: Option<string>, apiPrefix: Option<string>)

  datatype Body = Empty | Json(response: Response)

  /** What a route writes to its HTTP response. */
  datatype HttpReply = HttpReply(status: int, headers: map<string, string>, body: Body)

  /** An outbound body: `JSON.stringify(value)` or the value sent as it is. */
  datatype PostBody = Serialized(value: Value) | Raw(value: Value)

  /** One outbound POST request. */
  datatype Post = Post(url: string, headers: map<string, string>, body: PostBody)

  /** What `fetch` gives: a response with a status, or a thrown network error. */
  datatype FetchReply = Status(code: int) | NetworkError

  /** The reply the network gives next; a network with nothing left to answer fails. */
  function NextReply(replies: seq<FetchReply>): FetchReply {
    if replies == [] then NetworkError else replies[0]
  }

  function RestReplies(replies: seq<FetchReply>): seq<FetchReply> {
    if replies == [] then [] else replies[1..]
  }

  /** The outside world `fetch` talks to: the posts it has received and the replies it will give. */
  class Network {
    var sent: seq<Post>
    var replies: seq<FetchReply>

    constructor (replies: seq<FetchReply>)
      ensures this.sent == [] && this.replies == replies
    {
      this.sent := [];
      this.replies := replies;
    }

    /** `fetch(url, {method: 'POST', headers, body})` */
    method Fetch(post: Post) returns (reply: FetchReply)
      modifies this
      ensures sent == old(sent) + [post]
      ensures reply == NextReply(old(replies)) && replies == RestReplies(old(replies))
    {
      sent := sent + [post];
      reply := NextReply(replies);
      replies := RestReplies(replies);
    }
  }

  /** `typeof message === 'object' ? JSON.stringify(message) : message` */
  function BodyOf(message: Value): (body: PostBody)
    ensures body.value == message
    ensures body.Serialized? <==> message.Object? || message.Array? || message.Null?
  {
    if IsTypeofObject(message) then Serialized(message) else Raw(message)
  }

  /** Strings are sent as they are; objects, arrays and null are serialised; numbers and booleans are sent raw. */
  lemma BodyOfCases(text: string, fields: map<string, Value>, n: Number, b: bool)
    ensures BodyOf(Str(text)) == Raw(Str(text))
    ensures BodyOf(Object(fields)) == Serialized(Object(fields))
    ensures BodyOf(Null) == Serialized(Null)
    ensures BodyOf(Num(n)) == Raw(Num(n)) && BodyOf(Bool(b)) == Raw(Bool(b))
  {
  }

  /** `${prefix}/${sessionId}`: the callback path published to a session. */
  function EndpointPath(prefix: string, sessionId: string): string {
    prefix + "/" + sessionId
  }

  /** `/internal/${name}/${sessionId}`: the internal redirect target of a new session. */
  function InternalPath(name: string, sessionId: string): string {
    "/internal/" + name + "/" + sessionId
  }

  /** `${publishServer}/mcp/${name}/${channelId}` */
  function ChannelUrl(publishServer: string, name: string, channelId: string): string {
    publishServer + "/mcp/" + name + "/" + channelId
  }

  /** Strings with a common start are equal exactly when what follows it is. */
  lemma {:induction false} CommonStartCancels(start: string, a: string, b: string)
    requires start + a == start + b
    ensures a == b
  {
    assert a == (start + a)[|start|..];
    assert b == (start + b)[|start|..];
  }

  /** Distinct sessions are published distinct endpoint paths. */
  lemma EndpointPathIdentifiesSession(prefix: string, a: string, b: string)
    requires EndpointPath(prefix, a) == EndpointPath(prefix, b)
    ensures a == b
  {
    CommonStartCancels(prefix + "/", a, b);
  }

  /** Distinct sessions get distinct redirect targets. */
  lemma InternalPathIdentifiesSession(name: string, a: string, b: string)
    requires InternalPath(name, a) == InternalPath(name, b)
    ensures a == b
  {
    CommonStartCancels("/internal/" + name + "/", a, b);
  }

  /** Distinct channels of one server and name are distinct URLs. */
  lemma ChannelUrlIdentifiesChannel(publishServer: string, name: string, a: string, b: string)
    requires ChannelUrl(publishServer, name, a) == ChannelUrl(publishServer, name, b)
    ensures a == b
  {
    CommonStartCancels(publishServer + "/mcp/" + name + "/", a, b);
  }

  /** `transport === "sse" && sessionId` */
  predicate ShouldPublish(transport: Option<string>, sessionId: Option<string>) {
    transport == Some("sse") && sessionId.Some? && sessionId.value != ""
  }

  /**
    The endpoint is published only over SSE (the exact, case-sensitive text
    "sse") and only for a present, non-empty session id.
  */
  lemma ShouldPublishCases(transport: Option<string>, sessionId: string)
    ensures !ShouldPublish(transport, None) && !ShouldPublish(transport, Some(""))
    ensures !ShouldPublish(None, Some(sessionId)) && !ShouldPublish(Some("SSE"), Some(sessionId))
    ensures transport != Some("sse") ==> !ShouldPublish(transport, Some(sessionId))
    ensures sessionId != "" ==> ShouldPublish(Some("sse"), Some(sessionId))
  {
  }

  /** The catch block of `handleMcpRequest`: code 0, the fault's text, and the id unless it is falsy. */
  function CaughtResponse(id: Value, reason: Rejection): (r: Response)
    ensures r.jsonrpc == Version && ExactlyOneOutcome(r)
    ensures r.error == Some(ErrorObject(0, Str("Internal server error: " + Describe(reason))))
    ensures IsTruthy(id) ==> r.id == id
    ensures !IsTruthy(id) ==> r.id == Null
  {
    Response(Version, Or(id, Null), Undefined, Some(ErrorObject(0, Str("Internal server error: " + Describe(reason)))))
  }

  class HttMcp {
    const name: string
    const publishServer: Option<string>
    const apiPrefix: string
    /** The SDK server's registered handlers and its fallback handler. */
    const handlers: map<string, Handler>
    const fallback: Option<Handler>

    constructor (info: ServerInfo, handlers: map<string, Handler>, fallback: Option<Handler>)
      ensures name == info.name && publishServer == info.publishServer
      ensures apiPrefix == (if info.apiPrefix.Some? then info.apiPrefix.value else "")
      ensures this.handlers == handlers && this.fallback == fallback
    {
      name := info.name;
      publishServer := info.publishServer;
      apiPrefix := if info.apiPrefix.Some? then info.apiPrefix.value else "";
      this.handlers := handlers;
      this.fallback := fallback;
    }

    /** `this.publishServer` is truthy. */
    predicate PublishConfigured() {
      publishServer.Some? && publishServer.value != ""
    }

    /** `this.apiPrefix || `/mcp/${this.name}`` */
    function Prefix(): (prefix: string)
      ensures apiPrefix != "" ==> prefix == apiPrefix
      ensures apiPrefix == "" ==> prefix == "/mcp/" + name
      ensures prefix != ""
    {
      if apiPrefix != "" then apiPrefix else "/mcp/" + name
    }

    /** The request `publishToChannel` sends. */
    function ChannelPost(channelId: string, message: Value, event: string): Post
      requires PublishConfigured()
    {
      Post(ChannelUrl(publishServer.value, name, channelId),
           map["Content-Type" := "application/json", "X-EventSource-Event" := event],
           BodyOf(message))
    }

    /** `publishToChannel(channelId, message, event)`: one POST at most, true exactly on status 200. */
    method PublishToChannel(net: Network, channelId: string, message: Value, event: string) returns (ok: bool)
      modifies net
      ensures !PublishConfigured() ==> !ok && net.sent == old(net.sent) && net.replies == old(net.replies)
      ensures PublishConfigured() ==>
        && net.sent == old(net.sent) + [ChannelPost(channelId, message, event)]
        && net.replies == RestReplies(old(net.replies))
        && (ok <==> NextReply(old(net.replies)) == Status(200))
    {
      if !PublishConfigured() {
        return false;
      }
      var reply := net.Fetch(ChannelPost(channelId, message, event));
      match reply
      case NetworkError => ok := false;
      case Status(code) => ok := code == 200;
    }

    /** GET `/`: start a session whose fresh identifier is `sessionId`. */
    function SessionStart(sessionId: string): (reply: HttpReply)
      ensures reply.status == 200 && reply.body == Empty
      ensures reply.headers.Keys == {"X-Accel-Redirect", "X-Accel-Buffering"}
      ensures reply.headers["X-Accel-Buffering"] == "no"
      ensures reply.headers["X-Accel-Redirect"] == InternalPath(name, sessionId)
    {
      HttpReply(200, map["X-Accel-Redirect" := InternalPath(name, sessionId), "X-Accel-Buffering" := "no"], Empty)
    }

    /** GET `/endpoint`: publish the session's callback path when asked over SSE; always 200 and empty. */
    method Endpoint(net: Network, sessionHeader: Option<string>, transportHeader: Option<string>) returns (reply: HttpReply)
      modifies net
      ensures reply == HttpReply(200, map[], Empty)
      ensures ShouldPublish(transportHeader, sessionHeader) && PublishConfigured() ==>
        && net.sent == old(net.sent)
             + [ChannelPost(sessionHeader.value, Str(EndpointPath(Prefix(), sessionHeader.value)), "endpoint")]
        && net.replies == RestReplies(old(net.replies))
      ensures !(ShouldPublish(transportHeader, sessionHeader) && PublishConfigured()) ==>
        net.sent == old(net.sent) && net.replies == old(net.replies)
    {
      if ShouldPublish(transportHeader, sessionHeader) {
        var sessionId := sessionHeader.value;
        var _ := PublishToChannel(net, sessionId, Str(EndpointPath(Prefix(), sessionId)), "endpoint");
      }
      reply := HttpReply(200, map[], Empty);
    }

    /**
      What `handleMcpRequest` answers for a body (`None` when there is none),
      a session header and whether the abort signal is seen set.
    */
    function McpReply(body: Option<Request>, sessionHeader: Option<string>, abortedMeanwhile: bool): (reply: HttpReply)
      ensures reply.status == 200 && reply.headers == map[] && reply.body.Json?
      ensures reply.body.response.jsonrpc == Version
      ensures HasError(reply.body.response) ==> !HasResult(reply.body.response)
      // no body: the read of `params` fails and the catch block answers
      ensures body.None? ==>
        reply.body.response == CaughtResponse(Undefined, PropertyOfNullish(Undefined, "params"))
      ensures body.Some? ==>
        match OnRequest(handlers, fallback, WithSessionId(body.value, sessionHeader), abortedMeanwhile)
        case Fulfilled(response) => reply.body.response == response
        case Rejected(reason) => reply.body.response == CaughtResponse(body.value.id, reason)
      // an abort is always answered by the catch block, with code 0
      ensures abortedMeanwhile ==> reply.body.response.error.Some? && reply.body.response.error.value.code == 0
    {
      match body
      case None => HttpReply(200, map[], Json(CaughtResponse(Undefined, PropertyOfNullish(Undefined, "params"))))
      case Some(request) =>
        match OnRequest(handlers, fallback, WithSessionId(request, sessionHeader), abortedMeanwhile)
        case Fulfilled(response) => HttpReply(200, map[], Json(response))
        case Rejected(reason) => HttpReply(200, map[], Json(CaughtResponse(request.id, reason)))
    }

    /** POST to an RPC route: normalise the body in place, dispatch it, and answer 200 whatever happens. */
    method HandleMcpRequest(req: RpcRequest?, sessionHeader: Option<string>, abortedMeanwhile: bool)
      returns (reply: HttpReply)
      modifies req
      ensures req != null ==> req.Snapshot() == WithSessionId(old(req.Snapshot()), sessionHeader)
      ensures reply == McpReply(if req == null then None else Some(old(req.Snapshot())), sessionHeader, abortedMeanwhile)
    {
      if req == null {
        reply := HttpReply(200, map[], Json(CaughtResponse(Undefined, PropertyOfNullish(Undefined, "params"))));
        return;
      }
      if req.params.Some? && req.params.value.meta.Some? {
        var params := req.params.value;
        req.params := Some(params.(meta := Some(params.meta.value.(sessionId := HeaderValue(sessionHeader)))));
      }
      var settlement := OnRequest(handlers, fallback, req.Snapshot(), abortedMeanwhile);
      match settlement
      case Fulfilled(response) =>
        reply := HttpReply(200, map[], Json(response));
      case Rejected(reason) =>
        reply := HttpReply(200, map[], Json(CaughtResponse(req.id, reason)));
    }

    /** POST `/ping` and the two notifications: `{jsonrpc: "2.0", id: body?.id || "", result: {}}`. */
    function HandleEmptyResponse(body: Value): (reply: HttpReply)
      ensures reply.status == 200 && reply.headers == map[] && reply.body.Json?
      ensures reply.body.response.jsonrpc == Version
      ensures reply.body.response.result == Object(map[]) && reply.body.response.error.None?
      ensures ExactlyOneOutcome(reply.body.response)
      ensures IsTruthy(OptionalProperty(body, "id")) ==> reply.body.response.id == OptionalProperty(body, "id")
      ensures !IsTruthy(OptionalProperty(body, "id")) ==> reply.body.response.id == Str("")
    {
      HttpReply(200, map[], Json(Response(Version, Or(OptionalProperty(body, "id"), Str("")), Object(map[]), None)))
    }
  }

  /** A fulfilled dispatch echoes the request's id exactly; only the catch block applies `|| null`. */
  lemma McpReplyEchoesId(server: HttMcp, request: Request, sessionHeader: Option<string>, abortedMeanwhile: bool)
    ensures var response := server.McpReply(Some(request), sessionHeader, abortedMeanwhile).body.response;
      var settlement := OnRequest(server.handlers, server.fallback, WithSessionId(request, sessionHeader), abortedMeanwhile);
      && (settlement.Fulfilled? ==> response.id == request.id)
      && (settlement.Rejected? ==> response.id == Or(request.id, Null))
  {
  }

  /** An aborted call is answered with code 0 and the abort's text, unless the handler threw null or undefined. */
  lemma AbortedCallAnswer(server: HttMcp, request: Request, sessionHeader: Option<string>)
    requires !ThrowsNullish(server.handlers, server.fallback, WithSessionId(request, sessionHeader))
    ensures server.McpReply(Some(request), sessionHeader, true).body.response
         == CaughtResponse(request.id, Aborted)
  {
    assert OnRequest(server.handlers, server.fallback, WithSessionId(request, sessionHeader), true) == Rejected(Aborted);
  }

  /** The text the catch block gives an abort. */
  lemma AbortText()
    ensures "Internal server error: " + Describe(Aborted) == "Internal server error: Error: Request was aborted"
  {
  }

  /** An unknown method with no fallback: the method-not-found error, echoing the id. */
  lemma UnknownMethodAnswer(server: HttMcp, request: Request, sessionHeader: Option<string>)
    requires server.fallback.None?
    requires !(request.methodName.Str? && request.methodName.text in server.handlers)
    ensures server.McpReply(Some(request), sessionHeader, false).body.response
         == Response(Version, request.id, Undefined, Some(ErrorObject(MethodNotFound, Str("Method not found"))))
  {
  }

  /** With `_meta` present, the handler's context carries the header's session id. */
  lemma HandlerSeesHeaderSessionId(request: Request, sessionHeader: Option<string>)
    ensures HasMeta(request) ==>
      ContextFor(WithSessionId(request, sessionHeader)).sessionId == HeaderValue(sessionHeader)
    ensures !HasMeta(request) ==> ContextFor(WithSessionId(request, sessionHeader)).sessionId == Undefined
  {
  }

  /** The empty response depends on nothing in the body but its id, and repeating it changes nothing. */
  lemma EmptyResponseDependsOnlyOnId(server: HttMcp, a: Value, b: Value)
    requires OptionalProperty(a, "id") == OptionalProperty(b, "id")
    ensures server.HandleEmptyResponse(a) == server.HandleEmptyResponse(b)
  {
  }

  /** The `||` default replaces the falsy ids 0 and "" as well as a missing one. */
  lemma EmptyResponseFalsyIds(server: HttMcp)
    ensures server.HandleEmptyResponse(Object(map["id" := Int(0)])).body.response.id == Str("")
    ensures server.HandleEmptyResponse(Object(map["id" := Str("")])).body.response.id == Str("")
    ensures server.HandleEmptyResponse(Undefined).body.response.id == Str("")
    ensures server.HandleEmptyResponse(Object(map["id" := Int(7)])).body.response.id == Int(7)
  {
  }
}

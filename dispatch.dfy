/**
  The dispatch core (`HTTMCP._onrequest`): resolve the method to a handler,
  build the handler's execution context, invoke it, and turn every outcome
  into one JSON-RPC response or one rejection of the returned promise.
  The promise chain is modelled sequentially; whether the abort signal is set
  by the time the outcome is known is an input.
*/
module Dispatch {
  import opened Wrappers
  import opened Js
  import opened Rpc

  /** The execution context (`RequestHandlerExtra`) handed to a handler. */
  datatype Extra = Extra(signalAborted: bool, sessionId: Value)

  /** How a handler's promise settles: it fulfils with a value or rejects with a thrown value. */
  datatype Outcome = Returned(value: Value) | Threw(thrown: Value)

  /** A registered request handler. */
  type Handler = (Request, Extra) -> Outcome

  /** Why the promise `_onrequest` returns rejects. */
  datatype Rejection =
    | Aborted                                          // `new Error("Request was aborted")`
    | PropertyOfNullish(target: Value, property: string)  // a TypeError from reading a property of null or undefined

  /** `${reason}`: the text a rejection converts to in a template literal (V8's wording for the TypeError). */
  function Describe(reason: Rejection): string {
    match reason
    case Aborted => "Error: Request was aborted"
    case PropertyOfNullish(target, property) =>
      "TypeError: Cannot read properties of " + (if target.Null? then "null" else "undefined")
      + " (reading '" + property + "')"
  }

  /** `_requestHandlers.get(request.method) ?? fallbackRequestHandler`; the map's keys are strings. */
  function Lookup(handlers: map<string, Handler>, fallback: Option<Handler>, methodName: Value): (r: Option<Handler>)
    ensures methodName.Str? && methodName.text in handlers ==> r == Some(handlers[methodName.text])
    ensures !(methodName.Str? && methodName.text in handlers) ==> r == fallback
  {
    if methodName.Str? && methodName.text in handlers then Some(handlers[methodName.text]) else fallback
  }

  /** The context of a new dispatch: a fresh, unset signal and `params._meta.sessionId`. */
  function ContextFor(request: Request): Extra {
    Extra(false, MetaSessionId(request))
  }

  /** What `_onrequest` rejects with internally when no handler exists. */
  function MethodNotFoundFault(): Value {
    Object(map["code" := Int(MethodNotFound), "message" := Str("Method not found")])
  }

  /** The error object the rejection handler builds from a thrown value that is not nullish. */
  function FaultError(thrown: Value): (e: ErrorObject)
    requires !IsNullish(thrown)
    ensures IsSafeInteger(Property(thrown, "code")) ==> e.code == SafeIntegerValue(Property(thrown, "code"))
    ensures !IsSafeInteger(Property(thrown, "code")) ==> e.code == InternalError
    ensures -MaxSafeInteger <= e.code <= MaxSafeInteger
    ensures !IsNullish(Property(thrown, "message")) ==> e.message == Property(thrown, "message")
    ensures IsNullish(Property(thrown, "message")) ==> e.message == Str("Internal error")
    ensures e.message != Undefined && e.message != Null
  {
    var code := Property(thrown, "code");
    ErrorObject(
      if IsSafeInteger(code) then SafeIntegerValue(code) else InternalError,
      Coalesce(Property(thrown, "message"), Str("Internal error")))
  }

  /** The outcome after the second stage of the chain: a `{result}` / `{error}` pair, or an escaped throw. */
  datatype Settled = Settled(result: Value, error: Option<ErrorObject>) | Escaped(reason: Rejection)

  /**
    The second stage, `.then(result => ({result}), error => ({error: ...}))`.
    Reading `error["code"]` of a thrown null or undefined throws in turn.
  */
  function Settle(outcome: Outcome): Settled {
    match outcome
    case Returned(v) => Settled(v, None)
    case Threw(e) =>
      if IsNullish(e) then Escaped(PropertyOfNullish(e, "code"))
      else Settled(Undefined, Some(FaultError(e)))
  }

  /** The handler found for the request throws null or undefined. */
  predicate ThrowsNullish(handlers: map<string, Handler>, fallback: Option<Handler>, request: Request) {
    var handler := Lookup(handlers, fallback, request.methodName);
    && handler.Some?
    && var outcome := handler.value(request, ContextFor(request));
       outcome.Threw? && IsNullish(outcome.thrown)
  }

  /** How the promise returned by `_onrequest` settles. */
  datatype Settlement = Fulfilled(response: Response) | Rejected(reason: Rejection)

  /** The method-not-found response for a request id. */
  function NotFoundResponse(id: Value): Response {
    Response(Version, id, Undefined, Some(ErrorObject(MethodNotFound, Str("Method not found"))))
  }

  /**
    `_onrequest(request)`. `abortedMeanwhile` says whether the abort signal
    is set when the third stage of the chain runs.
  */
  function OnRequest(handlers: map<string, Handler>, fallback: Option<Handler>, request: Request,
                     abortedMeanwhile: bool): (r: Settlement)
    // the envelope always carries the protocol tag and the request's id, and never both result and error
    ensures r.Fulfilled? ==> r.response.jsonrpc == Version && r.response.id == request.id
    ensures r.Fulfilled? && HasError(r.response) ==> !HasResult(r.response)
    // an abort observed after the outcome is known always wins over a late result
    ensures r.Fulfilled? ==> !abortedMeanwhile
    // no handler: method not found, unless the signal was set
    ensures Lookup(handlers, fallback, request.methodName).None? ==>
      r == if abortedMeanwhile then Rejected(Aborted) else Fulfilled(NotFoundResponse(request.id))
    ensures Lookup(handlers, fallback, request.methodName).Some? ==>
      var outcome := Lookup(handlers, fallback, request.methodName).value(request, ContextFor(request));
      && (outcome.Returned? ==>
            r == if abortedMeanwhile then Rejected(Aborted)
                 else Fulfilled(Response(Version, request.id, outcome.value, None)))
      && (outcome.Threw? && !IsNullish(outcome.thrown) ==>
            r == if abortedMeanwhile then Rejected(Aborted)
                 else Fulfilled(Response(Version, request.id, Undefined, Some(FaultError(outcome.thrown)))))
      && (outcome.Threw? && IsNullish(outcome.thrown) ==>
            r == Rejected(PropertyOfNullish(outcome.thrown, "code")))
  {
    var outcome := match Lookup(handlers, fallback, request.methodName)
      case None => Threw(MethodNotFoundFault())
      case Some(handler) => handler(request, ContextFor(request));
    match Settle(outcome)
    case Escaped(reason) => Rejected(reason)
    case Settled(result, error) =>
      if abortedMeanwhile then Rejected(Aborted)
      else Fulfilled(Response(Version, request.id, result, error))
  }

  /** A handler's context carries `params._meta.sessionId`, or undefined without `_meta`, and an unset signal. */
  lemma ContextCarriesMetaSessionId(request: Request)
    ensures !ContextFor(request).signalAborted
    ensures HasMeta(request) ==> ContextFor(request).sessionId == request.params.value.meta.value.sessionId
    ensures !HasMeta(request) ==> ContextFor(request).sessionId == Undefined
  {
  }

  /** A fulfilled response lacks exactly one of result and error only when the handler fulfilled with undefined. */
  lemma FulfilledHasExactlyOneOutcome(handlers: map<string, Handler>, fallback: Option<Handler>,
                                      request: Request, abortedMeanwhile: bool)
    requires OnRequest(handlers, fallback, request, abortedMeanwhile).Fulfilled?
    ensures var response := OnRequest(handlers, fallback, request, abortedMeanwhile).response;
      var handler := Lookup(handlers, fallback, request.methodName);
      (!ExactlyOneOutcome(response)) <==>
        (handler.Some? && handler.value(request, ContextFor(request)) == Returned(Undefined))
  {
  }

  /** The error code in a response is never an invalid code taken from the fault. */
  lemma InvalidCodeNeverLeaks(thrown: Value)
    requires !IsNullish(thrown) && !IsSafeInteger(Property(thrown, "code"))
    ensures Int(FaultError(thrown).code) != Property(thrown, "code")
    ensures FaultError(thrown).code == InternalError
  {
    SafeIntegerRange(FaultError(thrown).code);
  }

  /** A fault with a safe-integer code keeps that code exactly. */
  lemma SafeCodePreserved(handlers: map<string, Handler>, request: Request, code: int, message: string)
    requires request.methodName.Str? && request.methodName.text in handlers
    requires handlers[request.methodName.text](request, ContextFor(request)) == Threw(Object(map["code" := Int(code), "message" := Str(message)]))
    requires -MaxSafeInteger <= code <= MaxSafeInteger
    ensures OnRequest(handlers, None, request, false)
         == Fulfilled(Response(Version, request.id, Undefined, Some(ErrorObject(code, Str(message)))))
  {
    SafeIntegerRange(code);
  }
}

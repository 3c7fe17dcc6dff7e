/** The JSON-RPC entry point of the server: from a parsed request body it
    extracts the method and the id, finds the registered handler, decodes
    the parameters, invokes the handler and turns what happens into a
    success envelope, an error envelope with its HTTP status, or nothing at
    all when a streaming handler has taken over the response. */
module Dispatcher {
  import opened Wrappers
  import opened RequestIds
  import opened RequestIdConverter
  import opened ServerErrors
  import opened Models

  /** The two facts about a handler's generic arguments the dispatcher
      looks at: whether its parameter type, and whether its result type, is
      `object`. */
  datatype HandlerInfo = HandlerInfo(paramsTypeIsObject: bool, resultTypeIsObject: bool)

  /** A registered handler: its `MethodName` and its types, in the order
      the service provider lists the handlers. */
  type Registration = (string, HandlerInfo)

  /** The first registered handler whose method name equals `methodName`. */
  function FindHandler(handlers: seq<Registration>, methodName: string): (r: Option<HandlerInfo>)
    ensures r.Some? <==> exists i | 0 <= i < |handlers| :: handlers[i].0 == methodName
    ensures r.Some? ==> exists i | 0 <= i < |handlers| ::
      handlers[i] == (methodName, r.value) && forall j | 0 <= j < i :: handlers[j].0 != methodName
  {
    if handlers == [] then None
    else if handlers[0].0 == methodName then Some(handlers[0].1)
    else
      var r := FindHandler(handlers[1..], methodName);
      assert forall i | 1 <= i < |handlers| :: handlers[i] == handlers[1..][i - 1];
      r
  }

  /** With every method name registered once, each name finds its own
      handler. */
  lemma FindDistinct(handlers: seq<Registration>, i: nat)
    requires forall a, b | 0 <= a < b < |handlers| :: handlers[a].0 != handlers[b].0
    requires i < |handlers|
    ensures FindHandler(handlers, handlers[i].0) == Some(handlers[i].1)
  {
    var r := FindHandler(handlers, handlers[i].0);
    var j :| 0 <= j < |handlers| && handlers[j] == (handlers[i].0, r.value)
      && forall k | 0 <= k < j :: handlers[k].0 != handlers[i].0;
    assert j == i;
  }

  /** `GetHandlerInfo` with its memo: the cache only ever holds answers the
      handler scan would give, so it never changes the answer. */
  class HandlerCache {
    const handlers: seq<Registration>
    var cache: map<string, HandlerInfo>

    ghost predicate Valid()
      reads this
    {
      forall m | m in cache :: FindHandler(handlers, m) == Some(cache[m])
    }

    constructor (handlers: seq<Registration>)
      ensures Valid() && this.handlers == handlers && cache == map[]
    {
      this.handlers := handlers;
      cache := map[];
    }

    method GetHandlerInfo(methodName: string) returns (info: Option<HandlerInfo>)
      requires Valid()
      modifies this
      ensures Valid()
      ensures info == FindHandler(handlers, methodName)
      ensures cache == if methodName in old(cache) || info.None? then old(cache)
                       else old(cache)[methodName := info.value]
    {
      if methodName in cache {
        return Some(cache[methodName]);
      }
      var i := 0;
      while i < |handlers|
        invariant 0 <= i <= |handlers|
        invariant FindHandler(handlers, methodName) == FindHandler(handlers[i..], methodName)
      {
        if handlers[i].0 == methodName {
          info := Some(handlers[i].1);
          cache := cache[methodName := handlers[i].1];
          return;
        }
        assert handlers[i..][1..] == handlers[i + 1..];
        i := i + 1;
      }
      info := None;
    }
  }

  /** What deserialising a present, non-null `params` node into the
      handler's parameter type gives. */
  datatype ParamsDecoding<P> =
    | Decoded(value: P)
    | DecodeJsonError(reason: string)   // a JsonException
    | DecodeFault(reason: string)       // any other exception

  /** What `JsonNode.Parse` makes of the request body. */
  datatype RequestBody<P> =
    | Unparsable(reason: string)        // a JsonException, the empty body included
    | NullDocument                      // the literal `null`
    | NonObjectDocument                 // an array or a primitive: indexing it throws
    | ObjectDocument(methodNode: Option<JsonToken>, id: Option<JsonToken>, params: Option<ParamsDecoding<P>>)
      // an absent property and a JSON null are both `None`

  /** What the dispatcher writes. */
  datatype Reply<V> =
    | ErrorReply(id: Option<RequestId>, error: ErrorDetail)
    | SuccessReply(replyId: RequestId, result: Option<V>)
    | NoReply                           // the handler owns the response stream

  /** `TryGetRequestId`: a JSON string gives a string id, a JSON integer
      that fits a long a numeric id, anything else (absent, null, a
      fraction, a boolean, an object, an array) no id. The `int` attempt
      after the `long` one can never succeed where the `long` one failed. */
  function TryGetRequestId(idNode: Option<JsonToken>): (r: Option<RequestId>)
    ensures idNode.None? ==> r.None?
    ensures idNode.Some? ==> (r.Some? <==> Read(idNode.value).Success?)
    ensures idNode.Some? && r.Some? ==> r.value == Read(idNode.value).value
  {
    match idNode
    case Some(JString(s)) => Some(StrId(s))
    case Some(JInteger(v)) => if InLongRange(v) then Some(NumId(v)) else None
    case _ => None
  }

  /** Every id a client writes is recovered by the dispatcher. */
  lemma TryGetRequestIdRoundTrip(id: RequestId)
    ensures TryGetRequestId(Some(Write(id))) == Some(id)
  {
    RoundTrip(id);
  }

  /** `WriteErrorResponseAsync`'s status: 400 for the malformed-request
      codes, 500 for every other code. */
  function StatusForCode(code: int): (status: int)
    ensures status == 400 <==> code in {ParseError, InvalidRequest, MethodNotFound, InvalidParams}
    ensures status == 400 || status == 500
  {
    if code == ParseError || code == InvalidRequest || code == MethodNotFound || code == InvalidParams
    then 400 else 500
  }

  /** The HTTP status of a reply: 200 for a success envelope. */
  function HttpStatus<V>(r: Reply<V>): Option<int> {
    match r
    case ErrorReply(_, e) => Some(StatusForCode(e.code))
    case SuccessReply(_, _) => Some(200)
    case NoReply => None
  }

  const UnexpectedErrorText: string := "An unexpected internal server error occurred."
  const NullBodyText: string := "Failed to parse JSON request body."
  const MissingMethodText: string := "Request is missing 'method' property."
  const HandlerFaultText: string := "Internal server error."
  const MissingIdText: string := "Internal error: Request ID missing after successful handler execution."

  function Fail<V>(id: Option<RequestId>, code: int, message: string, data: Option<string>): Reply<V> {
    ErrorReply(id, ErrorDetail(code, message, data))
  }

  /** The method name, when the `method` property holds a JSON string. */
  predicate MethodIsText(methodNode: Option<JsonToken>) {
    methodNode.None? || methodNode.value.JNull? || methodNode.value.JString?
  }

  function MethodText(methodNode: Option<JsonToken>): string
    requires MethodIsText(methodNode)
  {
    if methodNode.Some? && methodNode.value.JString? then methodNode.value.text else ""
  }

  /** The parameters the handler is invoked with (`Some(None)` being a null
      argument), or `None` when the dispatcher answers before invoking it. */
  function Invocation<P>(body: RequestBody<P>, handlers: seq<Registration>): (r: Option<Option<P>>)
    ensures r.Some? ==>
      body.ObjectDocument? && MethodIsText(body.methodNode) && MethodText(body.methodNode) != "" && FindHandler(handlers, MethodText(body.methodNode)).Some?
    ensures r == Some(None) ==>
      body.params.None? && FindHandler(handlers, MethodText(body.methodNode)).value.paramsTypeIsObject
  {
    if !body.ObjectDocument? || !MethodIsText(body.methodNode) || MethodText(body.methodNode) == "" then None
    else match FindHandler(handlers, MethodText(body.methodNode))
      case None => None
      case Some(info) =>
        match body.params
        case None => if info.paramsTypeIsObject then Some(None) else None
        case Some(Decoded(p)) => Some(Some(p))
        case Some(_) => None
  }

  /** `DispatchRequestAsync` for one parsed body, given how the handler call
      ends when the handler is invoked. */
  function Dispatch<P, V>(body: RequestBody<P>, handlers: seq<Registration>, outcome: HandlerOutcome<V>)
    : (r: Reply<V>)
    ensures Invocation(body, handlers).None? ==> r.ErrorReply?
    ensures !r.ErrorReply? ==>
      outcome.Returned? && body.ObjectDocument? && TryGetRequestId(body.id).Some?
    ensures r.SuccessReply? ==> Some(r.replyId) == TryGetRequestId(body.id) && r.result == outcome.result
  {
    match body
    case Unparsable(reason) => Fail(None, ParseError, "JSON parse error: " + reason, None)
    case NullDocument => Fail(None, ParseError, NullBodyText, None)
    case NonObjectDocument => Fail(None, InternalError, UnexpectedErrorText, None)
    case ObjectDocument(methodNode, idNode, params) =>
      if !MethodIsText(methodNode) then
        // `GetValue<string>` throws before the id is read
        Fail(None, InternalError, UnexpectedErrorText, None)
      else
        var id := TryGetRequestId(idNode);
        var name := MethodText(methodNode);
        if name == "" then Fail(id, InvalidRequest, MissingMethodText, None)
        else match FindHandler(handlers, name)
          case None => Fail(id, MethodNotFound, "Method '" + name + "' not found.", None)
          case Some(info) =>
            match params
            case Some(DecodeJsonError(reason)) =>
              Fail(id, InvalidParams, "Invalid parameters for method '" + name + "': " + reason, None)
            case Some(DecodeFault(_)) =>
              Fail(id, InternalError, UnexpectedErrorText, None)
            case _ =>
              if params.None? && !info.paramsTypeIsObject then
                Fail(id, InvalidParams, "Missing parameters for method '" + name + "'.", None)
              else
                match outcome
                case ThrewServer(e) => Fail(id, e.errorCode, e.message, e.errorData)
                case ThrewOther(message) => Fail(id, InternalError, HandlerFaultText, Some(message))
                case Returned(result) =>
                  if id.None? then
                    Fail(None, InternalError,
                         MissingIdText, None)
                  else if info.resultTypeIsObject && result.None? then NoReply
                  else SuccessReply(id.value, result)
  }

  /** The replies given before the handler is invoked: -32700 without an id
      for a body that does not parse or is `null`; -32600 with the body's id
      for a missing or empty method; -32602 with the id for parameters that
      fail to decode, and for absent ones unless the handler's parameter type
      is `object`. */
  lemma EarlyErrorCodes<P, V>(body: RequestBody<P>, handlers: seq<Registration>, outcome: HandlerOutcome<V>)
    ensures var r := Dispatch(body, handlers, outcome);
      (body.Unparsable? || body.NullDocument? ==>
         r.ErrorReply? && r.id.None? && r.error.code == ParseError && HttpStatus(r) == Some(400))
      && (body.ObjectDocument? && MethodIsText(body.methodNode) && MethodText(body.methodNode) == "" ==>
            r == ErrorReply(TryGetRequestId(body.id), ErrorDetail(InvalidRequest, MissingMethodText, None)))
      && (body.ObjectDocument? && MethodIsText(body.methodNode) && MethodText(body.methodNode) != ""
          && FindHandler(handlers, MethodText(body.methodNode)).Some?
          && ((body.params.Some? && body.params.value.DecodeJsonError?)
              || (body.params.None? && !FindHandler(handlers, MethodText(body.methodNode)).value.paramsTypeIsObject)) ==>
            r.ErrorReply? && r.id == TryGetRequestId(body.id) && r.error.code == InvalidParams && HttpStatus(r) == Some(400))
  {
  }

  /** Once the handler is invoked: any exception other than the server's
      own becomes -32603 carrying the exception's message as data; a
      returned result for a request without an id becomes -32603 without
      an id; otherwise the result is sent under the request's id, unless it
      is the null of a handler whose result type is `object`. */
  lemma InvokedOutcomes<P, V>(body: RequestBody<P>, handlers: seq<Registration>, outcome: HandlerOutcome<V>)
    requires Invocation(body, handlers).Some?
    ensures var r := Dispatch(body, handlers, outcome);
      var id := TryGetRequestId(body.id);
      (outcome.ThrewOther? ==> r == ErrorReply(id, ErrorDetail(InternalError, HandlerFaultText, Some(outcome.message))))
      && (outcome.Returned? && id.None? ==> r == ErrorReply(None, ErrorDetail(InternalError, MissingIdText, None)))
      && (outcome.Returned? && id.Some?
          && !(FindHandler(handlers, MethodText(body.methodNode)).value.resultTypeIsObject && outcome.result.None?) ==>
            r == SuccessReply(id.value, outcome.result) && HttpStatus(r) == Some(200))
  {
  }

  /** When the handler is not invoked, how it would have ended does not
      matter. */
  lemma EarlyRepliesIgnoreTheHandler<P, V>(body: RequestBody<P>, handlers: seq<Registration>,
                                          o1: HandlerOutcome<V>, o2: HandlerOutcome<V>)
    requires Invocation(body, handlers).None?
    ensures Dispatch(body, handlers, o1) == Dispatch(body, handlers, o2)
  {
  }

  /** A body that does not parse to an object, or whose method is not text,
      is answered without an id; every other error carries the id the body
      holds, except the missing-id failure after a successful call. */
  lemma ErrorReplyIds<P, V>(body: RequestBody<P>, handlers: seq<Registration>, outcome: HandlerOutcome<V>)
    ensures var r := Dispatch(body, handlers, outcome);
      r.ErrorReply? ==>
        if !body.ObjectDocument? || !MethodIsText(body.methodNode) then r.id.None?
        else r.id == TryGetRequestId(body.id)
  {
  }

  /** The malformed-request replies are 400s; an error the handler raises
      keeps its code, message and data and is a 500 unless its code is one of
      the four malformed-request codes. */
  lemma HandlerErrorsPassThrough<P, V>(body: RequestBody<P>, handlers: seq<Registration>, e: ServerException)
    requires Invocation(body, handlers).Some?
    ensures var r := Dispatch<P, V>(body, handlers, ThrewServer(e));
      r == ErrorReply(TryGetRequestId(body.id), ErrorDetail(e.errorCode, e.message, e.errorData))
      && HttpStatus(r) == Some(StatusForCode(e.errorCode))
  {
  }

  /** No envelope is written exactly when a handler whose result type is
      `object` returns null for a request that has an id. */
  lemma NoReplyExactlyForStreams<P, V>(body: RequestBody<P>, handlers: seq<Registration>, outcome: HandlerOutcome<V>)
    ensures Dispatch(body, handlers, outcome).NoReply? <==>
      Invocation(body, handlers).Some? && TryGetRequestId(body.id).Some? && outcome == Returned(None)
      && FindHandler(handlers, MethodText(body.methodNode)).value.resultTypeIsObject
  {
  }

  /** A request for a method nobody registered gets -32601 and a 400. */
  lemma UnknownMethod<P, V>(methodName: string, idNode: Option<JsonToken>, params: Option<ParamsDecoding<P>>,
                            handlers: seq<Registration>, outcome: HandlerOutcome<V>)
    requires methodName != "" && FindHandler(handlers, methodName).None?
    ensures var r := Dispatch(ObjectDocument(Some(JString(methodName)), idNode, params), handlers, outcome);
      r == ErrorReply(TryGetRequestId(idNode), ErrorDetail(MethodNotFound, "Method '" + methodName + "' not found.", None))
      && HttpStatus(r) == Some(400)
  {
  }
}

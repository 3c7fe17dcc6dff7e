/** `A2AClient`: the request-id counter, the classification of a unary
    JSON-RPC response, the null-result checks of the unary calls, and the
    opening of the two streaming calls. The HTTP exchange is an input: the
    status the server answered with, the name .NET gives that status, the
    body text, and what the two deserialisations of the body make of it. */
module Client {
  import opened Wrappers
  import opened Models
  import opened Text
  import opened RequestIds
  import opened ClientErrors
  import SseParser

  // ---------------------------------------------------------------------
  // Request ids
  // ---------------------------------------------------------------------

  /** `Interlocked.Increment` on a long: one more, wrapping from the largest
      long to the smallest. */
  function Increment(counter: Int64): (r: Int64)
    ensures counter < MaxLong ==> r == counter + 1
    ensures counter == MaxLong ==> r == MinLong
  {
    if counter == MaxLong then MinLong else counter + 1
  }

  /** The counter of a client after `n` requests. */
  function CounterAfter(n: nat): Int64 {
    if n == 0 then 0 else Increment(CounterAfter(n - 1))
  }

  /** The ids of a client count 1, 2, 3, ... for as long as a long holds them. */
  lemma {:induction false} CounterCounts(n: nat)
    requires n <= MaxLong
    ensures CounterAfter(n) == n
  {
    if n > 0 {
      CounterCounts(n - 1);
    }
  }

  /** Ids strictly increase from one request to any later one, so no two
      requests of one client share an id before the counter wraps. */
  lemma IdsIncrease(m: nat, n: nat)
    requires 0 < m < n <= MaxLong
    ensures 1 <= CounterAfter(m) < CounterAfter(n)
  {
    CounterCounts(m);
    CounterCounts(n);
  }

  /** The request after the largest long gets the smallest one. */
  lemma CounterWraps()
    ensures CounterAfter(MaxLong + 1) == MinLong
  {
    CounterCounts(MaxLong);
  }

  // ---------------------------------------------------------------------
  // Unary responses
  // ---------------------------------------------------------------------

  /** The `error` member of a response body: absent (the required member
      is missing, so deserialising the error envelope throws), JSON `null`,
      or an error object. */
  datatype ErrorMember = NoError | NullError | ErrorObject(detail: ErrorDetail)

  /** A response body as the two deserialisations see it: the JSON literal
      `null` (both give null), an envelope with an id, a result and an
      error member (each deserialisation ignores the member it does not
      know), or text neither accepts (both throw `JsonException`). */
  datatype ResponseBody<V> =
    | NullBody
    | Envelope(id: Option<RequestId>, result: Option<V>, error: ErrorMember)
    | Unreadable

  /** What `HttpClient.SendAsync` gives: an `HttpRequestException`, or a
      response with its status code, the status's .NET name (what the
      message interpolation prints), its body text, that text as read, and
      whether its content stream can seek (a buffered body can; a body
      read from the connection as the headers arrive in general cannot). */
  datatype HttpExchange<V> =
    | NetworkFailure
    | Response(status: int, statusName: string, text: string, body: ResponseBody<V>, seekable: bool)

  /** `IsSuccessStatusCode`. */
  predicate IsSuccessStatus(status: int) {
    200 <= status <= 299
  }

  /** The outcome of `SendRpcRequestAsync`: the `Result` member (possibly
      null) or a thrown client exception. */
  datatype RpcResult<V> = Answered(result: Option<V>) | Raised(error: ClientException)

  /** Whether the body answers the request: an envelope with the request's id. */
  predicate AnswersRequest<V>(body: ResponseBody<V>, requestId: RequestId) {
    body.Envelope? && body.id == Some(requestId)
  }

  /** Whether the body carries an error object. */
  predicate CarriesError<V>(body: ResponseBody<V>) {
    body.Envelope? && body.error.ErrorObject?
  }

  function NetworkMessage(methodName: string): string {
    "A2A network request failed for method '" + methodName + "'."
  }

  /** The non-2xx branch: the error object's exception; otherwise a client
      error naming the status, for a body that does not read as an error
      envelope and for one whose error is null. */
  function ErrorStatusOutcome<V>(statusName: string, body: ResponseBody<V>): (r: RpcResult<V>)
    ensures r.Raised?
    ensures r.error.errorCode.Some? <==> CarriesError(body)
    ensures CarriesError(body) ==> r.error == FromDetail(body.error.detail, body.id)
  {
    match body
    case Envelope(id, _, ErrorObject(d)) => Raised(FromDetail(d, id))
    case Envelope(_, _, NoError) => Raised(FromMessage(StatusFailureMessage(statusName, UnparsedErrorText)))
    case Unreadable => Raised(FromMessage(StatusFailureMessage(statusName, UnparsedErrorText)))
    case _ => Raised(FromMessage(StatusFailureMessage(statusName, InvalidErrorText)))
  }

  const UnparsedErrorText: string := "Failed to parse error response."
  const InvalidErrorText: string := "Received invalid error response structure."

  function StatusFailureMessage(statusName: string, reason: string): string {
    "A2A request failed with status code " + statusName + ". " + reason
  }

  /** The 2xx branch once the body does not answer the request. The
      content stream is rewound for the second read; a stream that cannot
      seek throws there, and the catch-all turns that into a client error
      naming the method. Otherwise the error object's exception, or a
      client error naming the status and the request. */
  function UnansweredOutcome<V>(methodName: string, requestId: RequestId, statusName: string, body: ResponseBody<V>,
                                seekable: bool): (r: RpcResult<V>)
    ensures r.Raised?
    ensures r.error.errorCode.Some? <==> seekable && CarriesError(body)
    ensures seekable && CarriesError(body) ==> r.error == FromDetail(body.error.detail, body.id)
    ensures !seekable ==> r == Raised(FromMessage(UnexpectedMessage(methodName)))
  {
    if !seekable then Raised(FromMessage(UnexpectedMessage(methodName)))
    else if CarriesError(body) then Raised(FromDetail(body.error.detail, body.id))
    else Raised(FromMessage(UndeserializedMessage(statusName, requestId)))
  }

  function UnexpectedMessage(methodName: string): string {
    "An unexpected error occurred during A2A request for method '" + methodName + "'."
  }

  function UndeserializedMessage(statusName: string, requestId: RequestId): string {
    "Received successful status code (" + statusName
      + ") but failed to deserialize A2A response for request ID " + RequestIds.ToString(requestId) + "."
  }

  /** Whether a 2xx body that does not answer the request reaches the
      second read as an error envelope: only when the stream can be
      rewound. */
  predicate Rewinds<V>(x: HttpExchange<V>) {
    x.Response? && (IsSuccessStatus(x.status) ==> x.seekable)
  }

  /** `SendRpcRequestAsync` as written. A 2xx response is first read as a
      success envelope, and one with the request's id yields its result,
      null included, before the error envelope is looked at; otherwise the
      stream is rewound, and the error object, if any, is thrown with its
      code, and anything else is a client error without a code. A non-2xx
      response always throws. */
  function RpcOutcome<V>(methodName: string, requestId: RequestId, x: HttpExchange<V>): (r: RpcResult<V>)
    ensures x.NetworkFailure? ==> r == Raised(FromMessage(NetworkMessage(methodName)))
    ensures r.Answered? <==> x.Response? && IsSuccessStatus(x.status) && AnswersRequest(x.body, requestId)
    ensures r.Answered? ==> r.result == x.body.result
    ensures r.Raised? && r.error.errorCode.Some? <==>
      Rewinds(x) && CarriesError(x.body) && !(IsSuccessStatus(x.status) && AnswersRequest(x.body, requestId))
    ensures r.Raised? && r.error.errorCode.Some? ==> r.error == FromDetail(x.body.error.detail, x.body.id)
  {
    match x
    case NetworkFailure => Raised(FromMessage(NetworkMessage(methodName)))
    case Response(status, statusName, _, body, seekable) =>
      if IsSuccessStatus(status) then
        if AnswersRequest(body, requestId) then Answered(body.result)
        else UnansweredOutcome(methodName, requestId, statusName, body, seekable)
      else ErrorStatusOutcome(statusName, body)
  }

  /** `SendRpcRequestAsync` with the error member looked at first on a
      2xx response: an error object is thrown with its code whatever the
      id (a body already read with the request's id needs no rewind), and
      only a body without one can answer the request. */
  function RpcOutcomeErrorFirst<V>(methodName: string, requestId: RequestId, x: HttpExchange<V>): (r: RpcResult<V>)
    ensures x.NetworkFailure? ==> r == Raised(FromMessage(NetworkMessage(methodName)))
    ensures r.Answered? <==> x.Response? && IsSuccessStatus(x.status) && AnswersRequest(x.body, requestId) && !CarriesError(x.body)
    ensures r.Answered? ==> r.result == x.body.result
    ensures r.Raised? && r.error.errorCode.Some? <==>
      x.Response? && CarriesError(x.body) && (Rewinds(x) || AnswersRequest(x.body, requestId))
    ensures x.Response? && IsSuccessStatus(x.status) && AnswersRequest(x.body, requestId) && CarriesError(x.body) ==>
      r == Raised(FromDetail(x.body.error.detail, x.body.id))
  {
    match x
    case NetworkFailure => Raised(FromMessage(NetworkMessage(methodName)))
    case Response(status, statusName, _, body, seekable) =>
      if IsSuccessStatus(status) then
        if AnswersRequest(body, requestId) then
          if CarriesError(body) then Raised(FromDetail(body.error.detail, body.id)) else Answered(body.result)
        else UnansweredOutcome(methodName, requestId, statusName, body, seekable)
      else ErrorStatusOutcome(statusName, body)
  }

  /** The two classifications differ exactly on a 2xx body that answers
      the request and carries an error object. */
  lemma ErrorFirstChangesOnlyErrorAnswers<V>(methodName: string, requestId: RequestId, x: HttpExchange<V>)
    ensures RpcOutcomeErrorFirst(methodName, requestId, x) != RpcOutcome(methodName, requestId, x) <==>
      x.Response? && IsSuccessStatus(x.status) && AnswersRequest(x.body, requestId) && CarriesError(x.body)
  {
    if x.Response? && IsSuccessStatus(x.status) && AnswersRequest(x.body, requestId) && CarriesError(x.body) {
      assert RpcOutcome(methodName, requestId, x).Answered?;
    }
  }

  // ---------------------------------------------------------------------
  // The unary calls
  // ---------------------------------------------------------------------

  const SendMethodName: string := "tasks/send"
  const GetMethodName: string := "tasks/get"
  const CancelMethodName: string := "tasks/cancel"
  const SetPushMethodName: string := "tasks/pushNotification/set"
  const GetPushMethodName: string := "tasks/pushNotification/get"

  /** The outcome of a unary call: its value, a client exception, or the
      argument exception of `ThrowIfNullOrEmpty`. */
  datatype CallResult<V> = Returned(value: V) | Threw(error: ClientException) | RejectedArgument(argError: ArgumentError)

  /** `ArgumentException.ThrowIfNullOrEmpty` on an empty task id. */
  const EmptyTaskId: ArgumentError := ArgumentInvalid("taskId", "The value cannot be an empty string.")

  const NullResultPrefix: string := "Server returned null result for "

  function NullResultMessage(methodName: string, taskId: string): string {
    if methodName == GetPushMethodName then
      NullResultPrefix + methodName
        + ", implying no configuration exists or an error occurred (Task ID: " + taskId + ")."
    else NullResultPrefix + methodName + " (Task ID: " + taskId + ")."
  }

  /** Both forms of the null-result message begin by naming the method. */
  lemma NullResultNamesMethod(methodName: string, taskId: string)
    ensures StartsWith(NullResultMessage(methodName, taskId), NullResultPrefix + methodName)
  {
    var head := NullResultPrefix + methodName;
    var m := NullResultMessage(methodName, taskId);
    if methodName == GetPushMethodName {
      var tail := ", implying no configuration exists or an error occurred (Task ID: " + taskId + ").";
      assert m == head + tail;
    } else {
      var tail := " (Task ID: " + taskId + ").";
      assert m == head + tail;
    }
    assert m[..|head|] == head;
  }

  /** The null check after `SendRpcRequestAsync`: a result is returned, a
      null result becomes a client error without a code that names the
      method and the task, and an exception passes through. */
  function RequireResult<V>(methodName: string, taskId: string, r: RpcResult<V>): (c: CallResult<V>)
    ensures c.Returned? <==> r.Answered? && r.result.Some?
    ensures c.Returned? ==> c.value == r.result.value
    ensures r.Raised? ==> c == Threw(r.error)
    ensures r == Answered(None) ==>
      (c.Threw? && c.error.errorCode.None? && StartsWith(c.error.message, NullResultPrefix + methodName))
  {
    match r
    case Raised(e) => Threw(e)
    case Answered(None) =>
      NullResultNamesMethod(methodName, taskId);
      Threw(FromMessage(NullResultMessage(methodName, taskId)))
    case Answered(Some(v)) => Returned(v)
  }

  /** A unary call as written (`SendTaskAsync`, `GetTaskAsync`,
      `CancelTaskAsync`, `SetPushNotificationAsync`,
      `GetPushNotificationAsync`): with a non-empty task id, one request is
      sent, its reply classified by `SendRpcRequestAsync` and the result
      null-checked. A 2xx envelope under the request's id is a value when
      its result is present and the null-result error otherwise, whatever
      its error member holds. */
  function CallOutcome<V>(methodName: string, taskId: string, requestId: RequestId, x: HttpExchange<V>): (c: CallResult<V>)
    ensures taskId == "" <==> c == RejectedArgument(EmptyTaskId)
    ensures c.Returned? <==>
      taskId != "" && x.Response? && IsSuccessStatus(x.status) && AnswersRequest(x.body, requestId) && x.body.result.Some?
    ensures c.Returned? ==> x.body.result == Some(c.value)
    ensures taskId != "" && x.Response? && IsSuccessStatus(x.status) && AnswersRequest(x.body, requestId) && x.body.result.None? ==>
      c == Threw(FromMessage(NullResultMessage(methodName, taskId)))
    ensures taskId != "" && Rewinds(x) && CarriesError(x.body) && !(IsSuccessStatus(x.status) && AnswersRequest(x.body, requestId)) ==>
      c == Threw(FromDetail(x.body.error.detail, x.body.id))
  {
    if taskId == "" then RejectedArgument(EmptyTaskId)
    else RequireResult(methodName, taskId, RpcOutcome(methodName, requestId, x))
  }

  /** A unary call with the error-first classification: every error object
      that is read reaches the caller with its code, and only a body
      without one returns a value. */
  function CallOutcomeErrorFirst<V>(methodName: string, taskId: string, requestId: RequestId, x: HttpExchange<V>): (c: CallResult<V>)
    ensures taskId == "" <==> c == RejectedArgument(EmptyTaskId)
    ensures c.Returned? ==>
      (x.Response? && IsSuccessStatus(x.status) && AnswersRequest(x.body, requestId)
       && !CarriesError(x.body) && x.body.result == Some(c.value))
    ensures taskId != "" && x.Response? && CarriesError(x.body) && (Rewinds(x) || AnswersRequest(x.body, requestId)) ==>
      c == Threw(FromDetail(x.body.error.detail, x.body.id))
  {
    if taskId == "" then RejectedArgument(EmptyTaskId)
    else RequireResult(methodName, taskId, RpcOutcomeErrorFirst(methodName, requestId, x))
  }

  /** The two unary calls agree except on a 2xx body that answers the
      request and carries an error object, where the call as written loses
      the error code and the error-first call keeps it. */
  lemma CallsDifferOnlyOnErrorAnswers<V>(methodName: string, taskId: string, requestId: RequestId, x: HttpExchange<V>)
    requires taskId != ""
    ensures CallOutcomeErrorFirst(methodName, taskId, requestId, x) != CallOutcome(methodName, taskId, requestId, x) <==>
      x.Response? && IsSuccessStatus(x.status) && AnswersRequest(x.body, requestId) && CarriesError(x.body)
    ensures x.Response? && IsSuccessStatus(x.status) && AnswersRequest(x.body, requestId) && CarriesError(x.body) ==>
      CallOutcome(methodName, taskId, requestId, x).Returned?
      || CallOutcome(methodName, taskId, requestId, x).error.errorCode.None?
  {
    ErrorFirstChangesOnlyErrorAnswers(methodName, requestId, x);
    if x.Response? && IsSuccessStatus(x.status) && AnswersRequest(x.body, requestId) && CarriesError(x.body) {
      var c := CallOutcome(methodName, taskId, requestId, x);
      assert c.Returned? || c == Threw(FromMessage(NullResultMessage(methodName, taskId)));
      assert CallOutcomeErrorFirst(methodName, taskId, requestId, x).Threw?;
      assert CallOutcomeErrorFirst(methodName, taskId, requestId, x).error.errorCode.Some?;
    }
  }

  /** The client defect the error-first classification corrects: a 200
      response carrying an error object under the request's own id comes
      back as a null result, so `SendTaskAsync` throws the null-result
      error and the server's error code is lost. */
  lemma ErrorAnswerLosesCode(requestId: RequestId, statusName: string, text: string, d: ErrorDetail, seekable: bool,
                             taskId: string)
    requires taskId != ""
    ensures var x := Response(200, statusName, text, Envelope(Some(requestId), None, ErrorObject(d)), seekable);
      RpcOutcome<Task>(SendMethodName, requestId, x) == Answered(None)
      && CallOutcome<Task>(SendMethodName, taskId, requestId, x) == Threw(FromMessage(NullResultMessage(SendMethodName, taskId)))
      && CallOutcome<Task>(SendMethodName, taskId, requestId, x).error.errorCode.None?
      && CallOutcomeErrorFirst<Task>(SendMethodName, taskId, requestId, x) == Threw(FromDetail(d, Some(requestId)))
  {
  }

  // ---------------------------------------------------------------------
  // Opening a stream
  // ---------------------------------------------------------------------

  /** The outcome of a streaming call: the updates read from the body, a
      client exception, or the `HttpRequestException` of
      `EnsureSuccessStatusCode` for the status, or the argument exception. */
  datatype StreamResult =
    | Streamed(events: seq<UpdateEvent>)
    | StreamRaised(error: ClientException)
    | StreamHttpError(status: int)
    | StreamRejected(argError: ArgumentError)

  /** The non-2xx branch of a streaming call: a non-blank body is read as an
      error envelope, whose error object is thrown with its code and whose
      unreadable text is quoted in the client error; a blank body or a null
      error ends in the HTTP error for the status. */
  function StreamErrorOutcome(methodName: string, statusName: string, status: int, text: string, body: ResponseBody<()>): (r: StreamResult)
    ensures r.StreamRaised? || r.StreamHttpError?
    ensures r.StreamHttpError? ==> r.status == status
    ensures r.StreamRaised? && r.error.errorCode.Some? <==> !IsBlank(text) && CarriesError(body)
    ensures IsBlank(text) ==> r == StreamHttpError(status)
  {
    if IsBlank(text) then StreamHttpError(status)
    else
      match body
      case Envelope(id, _, ErrorObject(d)) => StreamRaised(FromDetail(d, id))
      case Envelope(_, _, NoError) => StreamRaised(FromMessage(StreamParseFailure(methodName, statusName, text)))
      case Unreadable => StreamRaised(FromMessage(StreamParseFailure(methodName, statusName, text)))
      case _ => StreamHttpError(status)
  }

  function StreamParseFailure(methodName: string, statusName: string, text: string): string {
    "A2A request '" + methodName + "' failed with status code " + statusName + ". Failed to parse error response: " + text
  }

  /** `SendTaskAndSubscribeAsync` (trimming data both ends) and
      `ResubscribeAsync` (trimming only the start): reject an empty task
      id, fail on the network or a non-2xx status, and otherwise read the
      body as a stream of Server-Sent Events. */
  function StreamOutcome(methodName: string, taskId: string, x: HttpExchange<()>, mode: SseParser.TrimMode, dec: SseParser.Decoders): (r: StreamResult)
    ensures taskId == "" <==> r == StreamRejected(EmptyTaskId)
    ensures taskId != "" && x.NetworkFailure? ==> r == StreamRaised(FromMessage(NetworkMessage(methodName)))
    ensures r.Streamed? <==> taskId != "" && x.Response? && IsSuccessStatus(x.status)
    ensures r.Streamed? ==> r.events == SseParser.Parse(SplitLines(x.text), SseParser.Initial, mode, dec)
  {
    if taskId == "" then StreamRejected(EmptyTaskId)
    else
      match x
      case NetworkFailure => StreamRaised(FromMessage(NetworkMessage(methodName)))
      case Response(status, statusName, text, body, _) =>
        if IsSuccessStatus(status) then Streamed(SseParser.Parse(SplitLines(text), SseParser.Initial, mode, dec))
        else StreamErrorOutcome(methodName, statusName, status, text, body)
  }

  /** The client and its request-id counter. `requests`, a ghost count of
      the requests sent so far, ties the counter to `CounterAfter`. */
  class A2AClient {
    var requestIdCounter: Int64
    ghost var requests: nat

    ghost predicate Valid()
      reads this
    {
      requestIdCounter == CounterAfter(requests)
    }

    constructor ()
      ensures Valid() && requests == 0 && requestIdCounter == 0
    {
      requestIdCounter := 0;
      requests := 0;
    }

    /** `GenerateRequestId`: the next value of the counter, as a numeric id;
      the n-th request of a client gets id n until the counter wraps. */
    method GenerateRequestId() returns (id: RequestId)
      requires Valid()
      modifies this
      ensures Valid() && requests == old(requests) + 1
      ensures requestIdCounter == Increment(old(requestIdCounter)) && id == NumId(requestIdCounter)
      ensures requests <= MaxLong ==> id == NumId(requests)
    {
      requestIdCounter := Increment(requestIdCounter);
      requests := requests + 1;
      id := NumId(requestIdCounter);
      if requests <= MaxLong {
        CounterCounts(requests);
      }
    }

    /** A unary call (`SendTaskAsync`, `GetTaskAsync`, `CancelTaskAsync`,
        `SetPushNotificationAsync`, `GetPushNotificationAsync`): the argument
        check, then one request whose reply is classified and null-checked. */
    method Call<V>(methodName: string, taskId: string, x: HttpExchange<V>) returns (c: CallResult<V>)
      requires Valid()
      modifies this
      ensures Valid()
      ensures taskId == "" ==> requests == old(requests) && requestIdCounter == old(requestIdCounter)
      ensures taskId != "" ==> requests == old(requests) + 1
      ensures c == CallOutcome(methodName, taskId, NumId(requestIdCounter), x)
    {
      if taskId == "" {
        return RejectedArgument(EmptyTaskId);
      }
      var requestId := GenerateRequestId();
      var r := RpcOutcome(methodName, requestId, x);
      c := RequireResult(methodName, taskId, r);
    }

    /** A streaming call: the argument check, one request id, and then the
        response read line by line. */
    method Subscribe(methodName: string, taskId: string, x: HttpExchange<()>, mode: SseParser.TrimMode, dec: SseParser.Decoders)
      returns (r: StreamResult)
      requires Valid()
      modifies this
      ensures Valid()
      ensures taskId == "" ==> requests == old(requests)
      ensures taskId != "" ==> requests == old(requests) + 1
      ensures r == StreamOutcome(methodName, taskId, x, mode, dec)
    {
      if taskId == "" {
        return StreamRejected(EmptyTaskId);
      }
      var _ := GenerateRequestId();
      match x
      case NetworkFailure =>
        r := StreamRaised(FromMessage(NetworkMessage(methodName)));
      case Response(status, statusName, text, body, _) =>
        if IsSuccessStatus(status) {
          var events := SseParser.ConsumeSse(text, mode, dec);
          r := Streamed(events);
        } else {
          r := StreamErrorOutcome(methodName, statusName, status, text, body);
        }
    }
  }
}

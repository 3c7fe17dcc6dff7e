/** The server's error vocabulary: the JSON-RPC and A2A error codes, the
    exception a handler throws to report one, and the three ways a handler
    invocation can end. */
module ServerErrors {
  import opened Wrappers

  // Standard JSON-RPC codes.
  const ParseError: int := -32700
  const InvalidRequest: int := -32600
  const MethodNotFound: int := -32601
  const InvalidParams: int := -32602
  const InternalError: int := -32603

  // A2A codes, in the server-defined range -32099..-32000.
  const TaskNotFound: int := -32001
  const TaskNotCancelable: int := -32002
  const PushNotificationNotSupported: int := -32003
  const UnsupportedOperation: int := -32004
  const IncompatibleContentTypes: int := -32005

  /** The ten codes, standard ones first. */
  const AllCodes: seq<int> := [ParseError, InvalidRequest, MethodNotFound, InvalidParams, InternalError,
    TaskNotFound, TaskNotCancelable, PushNotificationNotSupported, UnsupportedOperation, IncompatibleContentTypes]

  /** No two of the codes are the same. */
  lemma CodesDistinct()
    ensures |AllCodes| == 10
    ensures forall i, j | 0 <= i < j < |AllCodes| :: AllCodes[i] != AllCodes[j]
  {
  }

  /** `A2AServerException`: keeps the code and the data it was built with;
      the data is kept as JSON text. */
  datatype ServerException = ServerException(errorCode: int, message: string, errorData: Option<string>)

  /** How a call of a handler's `HandleAsync` ends: it returns a (possibly
      null) result, throws an `A2AServerException`, or throws any other
      exception, of which only the message matters. */
  datatype HandlerOutcome<V> =
    | Returned(result: Option<V>)
    | ThrewServer(error: ServerException)
    | ThrewOther(message: string)

  predicate IsA2ACode(code: int) {
    -32099 <= code <= -32000
  }

  /** The A2A codes lie in the server-defined range and none of them clashes
      with a standard JSON-RPC code. */
  lemma CodeRanges()
    ensures IsA2ACode(TaskNotFound) && IsA2ACode(TaskNotCancelable)
      && IsA2ACode(PushNotificationNotSupported) && IsA2ACode(UnsupportedOperation)
      && IsA2ACode(IncompatibleContentTypes)
    ensures !IsA2ACode(ParseError) && !IsA2ACode(InvalidRequest) && !IsA2ACode(MethodNotFound)
      && !IsA2ACode(InvalidParams) && !IsA2ACode(InternalError)
  {
  }
}

/** `A2AClientException`: the error the client raises, carrying the
    JSON-RPC error code and data when the server sent an error envelope. */
module ClientErrors {
  import opened Wrappers
  import opened Models
  import opened Text
  import RequestIds

  /** The exception's message, `ErrorCode` and `ErrorData` (kept as JSON
      text). The inner exception of the second constructor is not modelled. */
  datatype ClientException = ClientException(message: string, errorCode: Option<int>, errorData: Option<string>)

  const FailurePrefix: string := "A2A request failed"

  /** The two message-only constructors: no JSON-RPC code and no data. */
  function FromMessage(message: string): (e: ClientException)
    ensures e.message == message && e.errorCode.None? && e.errorData.None?
  {
    ClientException(message, None, None)
  }

  /** The part of the message that names the request, present only when a
      request id is given. */
  function IdClause(requestId: Option<RequestIds.RequestId>): string {
    match requestId
    case None => ""
    case Some(id) => " (ID: " + RequestIds.ToString(id) + ")"
  }

  /** The constructor taking a JSON-RPC error detail: the error's own code
      and data; a message that begins "A2A request failed", names the
      request exactly when an id is given, and then carries the detail's
      message and "(Code: n)". */
  function FromDetail(detail: ErrorDetail, requestId: Option<RequestIds.RequestId>): (e: ClientException)
    ensures e.errorCode == Some(detail.code) && e.errorData == detail.data
    ensures Contains(e.message, detail.message)
    ensures Contains(e.message, "(Code: " + IntToDecimal(detail.code) + ")")
    ensures requestId.None? ==> StartsWith(e.message, FailurePrefix + ": ")
    ensures requestId.Some? ==> StartsWith(e.message, FailurePrefix + " (ID: " + RequestIds.ToString(requestId.value) + "): ")
  {
    var head := FailurePrefix + IdClause(requestId) + ": ";
    var code := "(Code: " + IntToDecimal(detail.code) + ")";
    var m := head + detail.message + " " + code;
    Pieces(head, detail.message, " ", code);
    assert OccursAt(m, detail.message, |head|);
    assert OccursAt(m, code, |m| - |code|);
    HeadShape(requestId);
    ClientException(m, Some(detail.code), detail.data)
  }

  /** Where the pieces of a four-part concatenation sit. */
  lemma Pieces<T>(a: seq<T>, b: seq<T>, c: seq<T>, d: seq<T>)
    ensures var m := a + b + c + d;
      m[..|a|] == a && m[|a|..|a| + |b|] == b && m[|m| - |d|..] == d
  {
    var m := a + b + c + d;
    assert m == a + (b + (c + d));
  }

  /** The head of the message, written out for each case of the id. */
  lemma HeadShape(requestId: Option<RequestIds.RequestId>)
    ensures requestId.None? ==> FailurePrefix + IdClause(requestId) + ": " == FailurePrefix + ": "
    ensures requestId.Some? ==> (FailurePrefix + IdClause(requestId) + ": "
      == FailurePrefix + " (ID: " + RequestIds.ToString(requestId.value) + "): ")
  {
    if requestId.Some? {
      Regroup(FailurePrefix, " (ID: ", RequestIds.ToString(requestId.value), ")", ": ");
    }
  }

  lemma Regroup<T>(p: seq<T>, q: seq<T>, r: seq<T>, s: seq<T>, t: seq<T>)
    ensures p + (q + r + s) + t == p + q + r + (s + t)
  {
  }

  /** The request id appears in the message exactly when one is given: with
      no id the message goes straight from "A2A request failed" to ": ",
      with one it continues with " (ID: ". */
  lemma FromDetailNamesIdIffGiven(detail: ErrorDetail, requestId: Option<RequestIds.RequestId>)
    ensures StartsWith(FromDetail(detail, requestId).message, FailurePrefix + " (ID: ") <==> requestId.Some?
  {
    var m := FromDetail(detail, requestId).message;
    if requestId.None? {
      assert m[|FailurePrefix|] == ':';
      assert (FailurePrefix + " (ID: ")[|FailurePrefix|] == ' ';
    } else {
      var p := FailurePrefix + " (ID: " + RequestIds.ToString(requestId.value) + "): ";
      assert m[..|p|] == p;
      assert m[..|FailurePrefix + " (ID: "|] == p[..|FailurePrefix + " (ID: "|];
    }
  }

  /** Only the error-detail constructor sets a code: an exception made from
      a message never carries one, whatever the message says. */
  lemma CodeOnlyFromDetail(message: string, detail: ErrorDetail, requestId: Option<RequestIds.RequestId>)
    ensures FromMessage(message) != FromDetail(detail, requestId)
  {
  }
}

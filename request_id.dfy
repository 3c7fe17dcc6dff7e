/** The JSON-RPC request identifier: a value that is either a string or a
    64-bit integer, compared by variant and payload. */
module RequestIds {
  import opened Wrappers
  import Text

  const MinLong: int := -0x8000_0000_0000_0000
  const MaxLong: int := 0x7FFF_FFFF_FFFF_FFFF
  const MinInt: int := -0x8000_0000
  const MaxInt: int := 0x7FFF_FFFF

  /** C#'s `long`. */
  type Int64 = n: int | MinLong <= n <= MaxLong

  /** C#'s `int`. */
  type Int32 = n: int | MinInt <= n <= MaxInt

  /** A request id holds exactly one of a string or a long. */
  datatype RequestId = StrId(str: string) | NumId(num: Int64)

  /** `new RequestId(string)`: a null string is refused. */
  function FromString(value: Option<string>): (r: Result<RequestId, ArgumentError>)
    ensures r.Failure? <==> value.None?
    ensures r.Failure? ==> r.error == ArgumentNull("value")
    ensures r.Success? ==> StringValue(r.value) == value && LongValue(r.value) == None
  {
    match value
    case None => Failure(ArgumentNull("value"))
    case Some(s) => Success(StrId(s))
  }

  /** `new RequestId(long)`. */
  function FromLong(value: Int64): (r: RequestId)
    ensures LongValue(r) == Some(value) && StringValue(r) == None
  {
    NumId(value)
  }

  /** The implicit conversion from `int` widens to the long variant. */
  function FromInt(value: Int32): (r: RequestId)
    ensures r == FromLong(value)
    ensures LongValue(r) == Some(value as Int64)
  {
    NumId(value)
  }

  /** `StringValue`: the string, or null for a numeric id. */
  function StringValue(id: RequestId): Option<string> {
    if id.StrId? then Some(id.str) else None
  }

  /** `LongValue`: the number, or null for a string id. */
  function LongValue(id: RequestId): Option<Int64> {
    if id.NumId? then Some(id.num) else None
  }

  /** `Equals`: the boxed payloads compared with `object.Equals`, so a string
      never equals a number, even "5" and 5. */
  predicate Equals(a: RequestId, b: RequestId) {
    match (a, b)
    case (StrId(x), StrId(y)) => x == y
    case (NumId(x), NumId(y)) => x == y
    case _ => false
  }

  /** `operator ==`. */
  predicate Eq(a: RequestId, b: RequestId) {
    Equals(a, b)
  }

  /** `operator !=`. */
  predicate Neq(a: RequestId, b: RequestId) {
    !Eq(a, b)
  }

  /** `ToString`: the string itself, or the decimal rendering of the number. */
  function ToString(id: RequestId): string {
    match id
    case StrId(s) => s
    case NumId(n) => Text.IntToDecimal(n)
  }

  /** Equality holds exactly when both ids have the same variant and the same
      payload, and `!=` is its negation. */
  lemma EqualityIsStructural(a: RequestId, b: RequestId)
    ensures Eq(a, b) <==> (StringValue(a) == StringValue(b) && LongValue(a) == LongValue(b))
    ensures Eq(a, b) <==> a == b
    ensures Neq(a, b) <==> !Eq(a, b)
  {
  }

  lemma StringNeverEqualsNumber(s: string, n: Int64)
    ensures Neq(StrId(s), NumId(n))
  {
  }

  /** Exactly one of the two accessors is set. */
  lemma OneAccessorSet(id: RequestId)
    ensures StringValue(id).Some? != LongValue(id).Some?
  {
  }

  /** The text of a numeric id reads back as its number. */
  lemma NumericToStringRoundTrip(n: Int64)
    ensures Text.ParseDecimal(ToString(NumId(n))) == n
  {
    Text.IntToDecimalRoundTrip(n);
  }
}

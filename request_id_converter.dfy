/** The JSON form of a request id: a JSON string for the string variant, a
    JSON number for the long variant, and the property-name form used when an
    id keys a dictionary. */
module RequestIdConverter {
  import opened Wrappers
  import opened RequestIds

  /** The token the JSON reader is positioned on. `JInteger` is a number
      written as an integer literal; `JNonInteger` one with a fraction or an
      exponent. */
  datatype JsonToken =
    | JString(text: string)
    | JInteger(value: int)
    | JNonInteger
    | JTrue
    | JFalse
    | JNull
    | JStartObject
    | JStartArray

  datatype ReadError =
    | UnexpectedToken    // JsonException: neither a string nor a number
    | NotAnInt64         // GetInt64 fails: a fraction, an exponent or out of range

  predicate InLongRange(v: int) {
    MinLong <= v <= MaxLong
  }

  /** `Read`: a string token gives a string id, a number token that fits a
      long gives a numeric id, and every other token is an error. */
  function Read(token: JsonToken): (r: Result<RequestId, ReadError>)
    ensures r.Success? <==> token.JString? || (token.JInteger? && InLongRange(token.value))
    ensures token.JString? ==> r == Success(StrId(token.text))
    ensures r.Success? && token.JInteger? ==> r.value.NumId? && r.value.num == token.value
    ensures r.Failure? && (token.JInteger? || token.JNonInteger?) ==> r.error == NotAnInt64
    ensures r.Failure? && !token.JInteger? && !token.JNonInteger? ==> r.error == UnexpectedToken
  {
    match token
    case JString(s) => Success(StrId(s))
    case JInteger(v) => if InLongRange(v) then Success(NumId(v)) else Failure(NotAnInt64)
    case JNonInteger => Failure(NotAnInt64)
    case _ => Failure(UnexpectedToken)
  }

  /** `Write`: the string variant as a JSON string, the long variant as a
      JSON number. */
  function Write(id: RequestId): (t: JsonToken)
    ensures t.JString? <==> StringValue(id).Some?
    ensures t.JInteger? <==> LongValue(id).Some?
  {
    match id
    case StrId(s) => JString(s)
    case NumId(n) => JInteger(n)
  }

  /** Writing then reading any id gives the id back. */
  lemma RoundTrip(id: RequestId)
    ensures Read(Write(id)) == Success(id)
  {
  }

  /** `ReadAsPropertyName`: a property name is always read as a string id. */
  function ReadAsPropertyName(name: string): (r: RequestId)
    ensures StringValue(r) == Some(name)
  {
    StrId(name)
  }

  /** `WriteAsPropertyName`: the id's `ToString`. */
  function WriteAsPropertyName(id: RequestId): string {
    ToString(id)
  }

  /** A string id survives the property-name round trip; a numeric id comes
      back as the string id of its decimal text, which does not equal it. */
  lemma PropertyNameRoundTrip(id: RequestId)
    ensures ReadAsPropertyName(WriteAsPropertyName(id)) == StrId(ToString(id))
    ensures id.StrId? ==> ReadAsPropertyName(WriteAsPropertyName(id)) == id
    ensures id.NumId? ==> Neq(ReadAsPropertyName(WriteAsPropertyName(id)), id)
  {
  }
}

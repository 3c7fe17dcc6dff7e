/** Option and Result, the two wrappers the rest of the model uses for
    C#'s nullable values and for operations that throw. */
module Wrappers {

  /** A value that may be missing (a C# `null`). */
  datatype Option<T> = None | Some(value: T)

  /** The outcome of an operation that either returns a value or throws. */
  datatype Result<T, E> = Success(value: T) | Failure(error: E)

  /** The .NET argument-validation exceptions (`ArgumentNullException`,
      `ArgumentException`), naming the offending parameter. */
  datatype ArgumentError =
    | ArgumentNull(paramName: string)
    | ArgumentInvalid(paramName: string, message: string)
}

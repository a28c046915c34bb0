/** Failure-carrying values used in place of the exceptions the C# code throws. */
module Wrappers {

  /** A value that may be absent (a C# null, or a failed TryParse). */
  datatype Option<+T> = None | Some(value: T)

  /** The value a call returns, or the exception it raises. */
  datatype Result<+T, +E> = Success(value: T) | Failure(error: E)

  /** The outcome of a `void` call: it returns normally or raises. */
  datatype Outcome<+E> = Pass | Fail(error: E)
}

/** Failure-carrying values used across the model: an optional value, a value
    or an error, and a pass/fail verdict. */
module Wrappers {

  /** A value that may be absent. */
  datatype Option<+T> = None | Some(value: T)

  /** Either a value or the error that stopped its computation (a Swift `throws`). */
  datatype Result<+R, +E> = Success(value: R) | Failure(error: E)

  /** The verdict of an operation that yields no value, only success or an error. */
  datatype Outcome<+E> = Pass | Fail(error: E)
}

/** Failure-compatible value types shared by every module of the model. */
module Wrappers {

  /** A JSON field that may be absent (undefined or null). */
  datatype Option<+T> = None | Some(value: T)

  /** The value of an operation that either produces a value or raises an error with a message. */
  datatype Result<+T, +E> = Success(value: T) | Failure(error: E)

  /** The value of an operation that either completes or raises an error. */
  datatype Outcome<+E> = Pass | Fail(error: E)
}

/** Failure-carrying wrappers used across the model. */
module Wrappers {

  /** A value that may be absent (Python's `Optional`, `None` when absent). */
  datatype Option<+T> = None | Some(value: T)

  /** A value, or the error raised instead of producing it. */
  datatype Result<+T, +E> = Success(value: T) | Failure(error: E)

  /** An operation that returns nothing, or the error it raised. */
  datatype Outcome<+E> = Pass | Fail(error: E)
}

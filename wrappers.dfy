/** Failure-carrying values used where the Python code raises an exception
    or answers with an error instead of a value. */
module Wrappers {

  /** A value that may be absent (Python's `None`). */
  datatype Option<+T> = None | Some(value: T)

  /** Either a value or the error that the Python code would raise. */
  datatype Result<+T, +E> = Success(value: T) | Failure(error: E)

  /** Success without a value, or the error that the Python code would raise. */
  datatype Outcome<+E> = Pass | Fail(error: E)
}

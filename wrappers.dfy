/** The optional-value and result datatypes the other modules share. */
module Wrappers {

  /** A value that may be absent: Python's `None` or a plain value. */
  datatype Option<+T> = None | Some(value: T)

  /** A computation that either succeeds or reports one error. */
  datatype Result<+T, +E> = Success(value: T) | Failure(error: E)
}

/** Failure-carrying wrappers shared by the other modules. */
module Wrappers {

  /** A value that may be absent: Python's `None` default for an unset parameter. */
  datatype Option<+T> = None | Some(value: T)

  /** The outcome of an operation that can raise: a value, or the reason it failed. */
  datatype Result<+T, +E> = Success(value: T) | Failure(error: E)
}

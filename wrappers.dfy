/** Option and Result, the failure-carrying values used throughout the model. */
module Wrappers {

  /** A value that may be missing: a Python `None` or an absent dictionary key. */
  datatype Option<+T> = None | Some(value: T)

  /** The outcome of an operation that the Python code may abort with an exception. */
  datatype Result<+T, +E> = Success(value: T) | Failure(error: E)
}

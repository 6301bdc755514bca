/** Option and Result, the failure-carrying datatypes the rest of the model returns. */
module Wrappers {

  /** A value that may be absent (PHP's null as a result). */
  datatype Option<+T> = None | Some(value: T)

  /** The outcome of an operation that either returns a value or throws. */
  datatype Result<+T, +E> = Success(value: T) | Failure(error: E)
}

/** Option and Result, used for optional payload fields and for the dispatcher's error channel. */
module Wrappers {

  /** A value that may be absent (a missing dictionary key, or Python's None). */
  datatype Option<+T> = None | Some(value: T)

  /** The outcome of an operation that can raise an exception. */
  datatype Result<+R, +E> = Success(value: R) | Failure(error: E)
}

/** Option and Result, the failure-carrying values used across the model. */
module Wrappers {

  datatype Option<+T> = None | Some(value: T)

  /** A thrown JavaScript error is a Failure carrying its message. */
  datatype Result<+R, +E> = Success(value: R) | Failure(error: E)
}

/** Option and Result, the failure-carrying wrappers used throughout the model. */
module Wrappers {

  datatype Option<+T> = None | Some(value: T)

  /** A Python call that either returns a value or raises `error`. */
  datatype Result<+R, +E> = Success(value: R) | Failure(error: E)
}

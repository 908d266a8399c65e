/** Failure-compatible wrappers used for nullable values and for the errors the dashboard raises. */
module Wrappers {

  datatype Option<+T> = None | Some(value: T)

  datatype Result<+R, +E> = Success(value: R) | Failure(error: E)
}

/** Option and Result, the failure-carrying wrappers used throughout the model. */
module Wrappers {

  datatype Option<+T> = None | Some(value: T)

  /** The settled outcome of a JavaScript call or promise: a value, or the reason it threw or rejected. */
  datatype Result<+R, +E> = Success(value: R) | Failure(error: E)
}

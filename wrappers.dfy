/** Option and Result, the two failure-carrying datatypes the model uses. */
module Wrappers {

  /** A value that may be absent (JavaScript's `undefined`). */
  datatype Option<+T> = None | Some(value: T)

  /** The settled value of a computation that either returns or throws. */
  datatype Result<+R, +E> = Success(value: R) | Failure(error: E)
}

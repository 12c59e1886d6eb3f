/** Option and Result, the failure-carrying values every other module uses. */
module Basics {

  datatype Option<+T> = None | Some(value: T)

  /** A step that either produces a value or throws an error message. */
  datatype Result<+R, +E> = Success(value: R) | Failure(error: E)
}

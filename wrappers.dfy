/** Option and Result values used where the route either has a value or fails. */
module Wrappers {

  datatype Option<+T> = None | Some(value: T)

  /** The outcome of a step that may throw: a value, or the message of the error it throws. */
  datatype Result<+R, +E> = Success(value: R) | Failure(error: E)
}

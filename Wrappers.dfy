/** Option and Result, the failure-carrying values used across the model. */
module Wrappers {

  /** A value that may be absent: a missing JSON field, `undefined` or `null`. */
  datatype Option<+T> = None | Some(value: T)

  /** The outcome of an operation that may throw. */
  datatype Result<+R, +E> = Success(value: R) | Failure(error: E)
}

/** Failure-compatible result types used for the error paths of the model. */
module Wrappers {

  datatype Option<+T> = None | Some(value: T)

  /** Either a value or the exception the source would throw. */
  datatype Result<+R, +E> = Success(value: R) | Failure(error: E)

  /** A computation that produces no value but may throw. */
  datatype Outcome<+E> = Pass | Fail(error: E)
}

/** Failure-carrying result types used for the Python exceptions of the model. */
module Wrappers {

  datatype Option<+T> = None | Some(value: T)

  /** A computation that either returns a value or raises an error. */
  datatype Result<+R, +E> = Success(value: R) | Failure(error: E)

  /** A computation that either completes or raises an error, and returns nothing. */
  datatype Outcome<+E> = Pass | Fail(error: E)
}

/** Failure-carrying result types used across the model. */
module Wrappers {

  datatype Option<+T> = None | Some(value: T)

  /** A computation that either yields a value or fails with an error. */
  datatype Result<+T, +E> = Success(value: T) | Failure(error: E)

  /** A computation that either passes or fails with an error, with no value. */
  datatype Outcome<+E> = Pass | Fail(error: E)
}

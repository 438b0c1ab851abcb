/** The Option, Result and Outcome datatypes used across the model. */
module Wrappers {

  /** A value that may be absent (JavaScript `null` / `undefined`). */
  datatype Option<+T> = None | Some(value: T)

  /** A computation that either yields a value or fails with an error. */
  datatype Result<+R, +E> = Success(value: R) | Failure(error: E)

  /** How an `async` function without a result settles: it resolves, or it rejects with an error. */
  datatype Outcome<+E> = Pass | Fail(error: E)
}

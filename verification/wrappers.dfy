/**
 * Optional values (JavaScript's `null`/`undefined` and the NaN of a failed
 * parse) and the outcome of an evaluation that may fail.
 */
module Wrappers {

  datatype Option<+T> = None | Some(value: T)

  /** The outcome of an operation that may fail with an error value. */
  datatype Result<+R, +E> = Success(value: R) | Failure(error: E)
}

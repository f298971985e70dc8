/** Failure-carrying values used by every part of the model. */
module Wrappers {

  datatype Option<+T> = None | Some(value: T)

  /** A value or the message of the error that was thrown instead. */
  datatype Result<+T, +E> = Success(value: T) | Failure(error: E)

  /** A settled promise with no value: resolved, or rejected with an error. */
  datatype Outcome<+E> = Pass | Fail(error: E)
}

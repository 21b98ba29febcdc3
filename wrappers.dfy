/** Failure-carrying values used throughout the model. */
module Wrappers {

  datatype Option<+T> = None | Some(value: T)

  /** A value or the message of the error that replaced it. */
  datatype Result<+R> = Success(value: R) | Failure(error: string)

  /** A check that passes, or fails with a message. */
  datatype Outcome = Pass | Fail(error: string)
}

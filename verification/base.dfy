/** Failure-compatible wrappers shared by every module of the model. */
module Base {

  /** A value that may be missing; `None` plays JavaScript's `undefined`. */
  datatype Option<+T> = None | Some(value: T)

  /** A computation that either produced a value or threw an error. */
  datatype Result<+T, +E> = Ok(value: T) | Err(error: E)

  /** A computation without a value that either completed or threw an error. */
  datatype Outcome<+E> = Pass | Fail(error: E)
}

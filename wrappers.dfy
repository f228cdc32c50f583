/** Option, Result and Outcome datatypes used across the model. */
module Wrappers {

  /** A Go pointer that may be nil. */
  datatype Option<+T> = None | Some(value: T)

  /** A value or the error that prevented computing it. */
  datatype Result<+T, +E> = Success(value: T) | Failure(error: E)

  /** A Go `error` return: nil (Pass) or a non-nil error (Fail). */
  datatype Outcome<+E> = Pass | Fail(error: E)
}

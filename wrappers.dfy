/** Failure-compatible wrappers shared by the model: an optional value, a value or
    an error, and the bare success-or-error signal that a Go `error` return carries. */
module Wrappers {

  datatype Option<+T> = None | Some(value: T)

  datatype Result<+T, +E> = Success(value: T) | Failure(error: E)

  /** `Pass` is a nil `error`; `Fail(e)` is a non-nil one. */
  datatype Outcome<+E> = Pass | Fail(error: E)
}

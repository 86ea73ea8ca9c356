/** Option, Result and Err: Go's nil pointers, (value, error) pairs and error values. */
module Wrappers {

  /** A value that may be absent (a Go pointer that may be nil). */
  datatype Option<+T> = None | Some(value: T)

  /** The outcome of a call that returns a value or an error. */
  datatype Result<+R, +E> = Success(value: R) | Failure(error: E)

  /** A Go error value; only its message is observable. */
  datatype Err = Err(message: string)
}

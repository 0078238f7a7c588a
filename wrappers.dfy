/** Failure-carrying values used in place of Go's `(value, error)` pairs and nil pointers. */
module Wrappers {

  /** A value that may be absent (a Go pointer that may be nil). */
  datatype Option<T> = None | Some(value: T)

  /** The outcome of a call that returns a value or an error message. */
  datatype Result<T> = Ok(value: T) | Err(error: string)

  /** The outcome of a call that returns only an error (nil or not). */
  datatype Outcome = Pass | Fail(error: string)
}

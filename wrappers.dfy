/** Option and Result values for absent fields and for the service's error paths. */
module Wrappers {

  /** A value that may be absent (PHP `null`). */
  datatype Option<+T> = None | Some(value: T)

  /** The outcome of an operation that either succeeds with a value or throws. */
  datatype Result<+T, +E> = Ok(value: T) | Err(error: E)
}

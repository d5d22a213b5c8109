/** Option and Result, used for the nil pointers and the error returns of the Go code. */
module Wrappers {

  datatype Option<+T> = None | Some(value: T)

  /** A Go `(value, error)` pair: either a value or an error message. */
  datatype Result<+T> = Ok(value: T) | Err(error: string)
}

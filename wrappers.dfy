/** Option and Result values used across the model for Go's nil pointers and error returns. */
module Wrappers {

  datatype Option<+T> = None | Some(value: T)

  /** A Go `(value, error)` pair: either a value or an error message. */
  datatype Result<+T> = Ok(value: T) | Err(error: string)
}

/** Option and Result values used for the Go "value or nil" and "(value, error)" returns. */
module Wrappers {

  datatype Option<+T> = None | Some(value: T)

  /** A Go `(value, error)` pair where exactly one side is meaningful; the error is its text. */
  datatype Result<+T> = Ok(value: T) | Err(error: string)
}

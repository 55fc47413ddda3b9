/** Option and Result, used for the Go `(value, error)` pairs and nil-able fields. */
module Wrappers {

  datatype Option<+T> = None | Some(value: T)

  datatype Result<+T, +E> = Ok(value: T) | Err(error: E)
}

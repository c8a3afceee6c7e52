/** Option and Result, used where the Go code returns an error value or may have nothing to give. */
module Wrappers {

  datatype Option<+T> = None | Some(value: T)

  datatype Result<+T, +E> = Ok(value: T) | Err(error: E)
}

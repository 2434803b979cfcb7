/** Option and Result, the Dafny stand-ins for Go's nil-able values and
    its (value, error) returns. */
module Wrappers {

  /** A value that may be absent: Go's nil error or nil pointer is None. */
  datatype Option<+T> = None | Some(value: T)

  /** The result of a Go call returning (T, error): Ok when the error is nil. */
  datatype Result<+T, +E> = Ok(value: T) | Err(error: E)
}

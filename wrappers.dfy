/** Go's "value or error" and "error or nil" returns, as datatypes. */
module Wrappers {

  /** An optional value; `None` plays the role of Go's nil. */
  datatype Option<+T> = None | Some(value: T)

  /** A value or the error that prevented it. */
  datatype Result<+T, +E> = Ok(value: T) | Err(error: E)
}

/** Failure-carrying wrappers shared by the other modules. */
module Wrappers {

  /** An optional value: Go's nil error or nil pointer is `None`. */
  datatype Option<+T> = None | Some(value: T)

  /** A value or the error that prevented computing it. */
  datatype Result<+T, +E> = Ok(value: T) | Err(error: E)
}

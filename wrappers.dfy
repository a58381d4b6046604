/** Failure-carrying values shared by the rest of the model. */
module Wrappers {

  /** An optional value. */
  datatype Option<T> = None | Some(value: T)

  /** The `(value, error)` pair a Go call returns: either a value or an error message. */
  datatype Result<T> = Ok(value: T) | Err(error: string)
}

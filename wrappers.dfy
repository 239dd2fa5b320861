/** Failure-carrying values shared by every module of the model. */
module Wrappers {

  /** A value that may be missing; stands for a Go nil pointer or a failed lookup. */
  datatype Option<T> = None | Some(value: T)

  /** A Go `(value, error)` pair: either a value or an error message. */
  datatype Result<T> = Ok(value: T) | Err(message: string)
}

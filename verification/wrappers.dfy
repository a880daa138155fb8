/** Failure-carrying values: the model's stand-ins for Rust's `Option` and `Result`. */
module Wrappers {

  /** An optional value: a lookup that may find nothing. */
  datatype Option<+T> = None | Some(value: T)

  /** The outcome of a fallible computation: a value or the error that stopped it. */
  datatype Result<+T, +E> = Ok(value: T) | Err(error: E)
}

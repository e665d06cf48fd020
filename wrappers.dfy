/** Failure-carrying values used across the model. */
module Wrappers {

  /** An optional value (Rust's `Option`). */
  datatype Option<T> = None | Some(value: T)

  /** A value or an error (Rust's `Result`). */
  datatype Result<T, E> = Ok(value: T) | Err(error: E)

  /** Success without a value, or an error (Rust's `Result<(), E>`). */
  datatype Outcome<E> = Pass | Fail(error: E)
}

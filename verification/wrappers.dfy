/** Failure-compatible wrappers shared by every module of the model. */
module Wrappers {

  /** The conventional Some/None datatype (Rust's `Option`). */
  datatype Option<+T> = None | Some(value: T)

  /** A value or an error (Rust's `Result<T, E>`). */
  datatype Result<+T, +E> = Success(value: T) | Failure(error: E)

  /** A Pass/Fail outcome that carries only an error (Rust's `Result<(), E>`). */
  datatype Outcome<+E> = Pass | Fail(error: E)
}

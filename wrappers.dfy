/** Small value wrappers shared by every module of the model. */
module Wrappers {
  /** Rust's `Option<T>`. */
  datatype Option<T> = None | Some(value: T)

  /** Rust's `Result<T, E>`: the error path of a fallible operation. */
  datatype Result<T, E> = Ok(value: T) | Err(error: E)

  /**
   * The outcome of an operation that may abort the program with a Rust
   * `panic!` (or a failed `assert!`): `Panic` is a programmer error rather
   * than a recoverable error value.
   */
  datatype Checked<T> = Done(value: T) | Panic

  /** `core::cmp::Ordering`. */
  datatype Ordering = Less | Equal | Greater
}

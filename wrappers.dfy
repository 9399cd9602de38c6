/** Option and Result, the two failure-carrying shapes the object protocol returns. */
module Wrappers {

  /** Rust's `Option<T>`: `None` signals absence, never failure. */
  datatype Option<+T> = None | Some(value: T)

  /** Rust's `Result<T, E>`. */
  datatype Result<+T, +E> = Ok(value: T) | Err(error: E)
}

/** Types shared by the other modules: Rust's `u8`, `Option` and `Result`. */
module Wrappers {

  /** Rust's `u8`. */
  newtype byte = x: int | 0 <= x < 256

  datatype Option<+T> = None | Some(value: T)

  /** Rust's `Result<T, E>`: a value or an error. */
  datatype Result<+T, +E> = Ok(value: T) | Err(error: E)
}

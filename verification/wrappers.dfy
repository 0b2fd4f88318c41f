/** Failure-carrying result types shared by the processor and the assembler.
    They play the role of Rust's `Result<T, E>` and `Option<T>`. */
module Wrappers {

  /** Either a successful value or an error value. */
  datatype Result<+T, +E> = Ok(value: T) | Err(error: E)

  /** Either a value or nothing. */
  datatype Option<+T> = None | Some(value: T)
}

/** Rust's `Option` and `Result`, used for every fallible constructor and parser of the crate. */
module Wrappers {

  datatype Option<+T> = None | Some(value: T)

  datatype Result<+T, +E> = Ok(value: T) | Err(error: E)
}

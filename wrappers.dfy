/** Option and Result values standing in for JavaScript's null/undefined and thrown errors. */
module Wrappers {

  datatype Option<+T> = None | Some(value: T)

  /** A computation that either yields a value or fails with an error message. */
  datatype Result<+T, +E> = Ok(value: T) | Err(error: E)
}

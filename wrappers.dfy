/** Option and Result, the shapes every fallible operation of the client returns. */
module Wrappers {

  datatype Option<+T> = None | Some(value: T)

  /** `Err` stands for a Python exception that ends the call. */
  datatype Result<+T, +E> = Ok(value: T) | Err(error: E)
}

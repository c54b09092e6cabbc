/** Option and Result, the shapes the Rust code returns (`Option<T>`, `Result<T, E>`). */
module Wrappers {

  datatype Option<+T> = None | Some(value: T)

  datatype Result<+T, +E> = Ok(value: T) | Err(error: E)
}

/** Option and Result, the two failure-carrying datatypes the model uses for
    Rust's `Option<T>` and `anyhow::Result<T>` (whose error is a message). */
module Wrappers {

  datatype Option<+T> = None | Some(value: T)

  datatype Result<+T> = Ok(value: T) | Err(error: string)
}

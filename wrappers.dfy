/** Option and Result, the shapes the rest of the model uses for `T | null`,
    optional properties and thrown errors. */
module Wrappers {

  datatype Option<+T> = None | Some(value: T)

  datatype Result<+T, +E> = Ok(value: T) | Err(error: E)
}

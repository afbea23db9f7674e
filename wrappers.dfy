/** Option and Result, the two failure-carrying datatypes the model uses for
    `undefined` values and for operations that throw. */
module Wrappers {

  datatype Option<+T> = None | Some(value: T)

  datatype Result<+T, +E> = Ok(value: T) | Err(error: E)
}

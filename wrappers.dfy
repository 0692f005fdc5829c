/** Option and Result, the two failure-carrying shapes the rest of the model uses. */
module Wrappers {

  datatype Option<T> = None | Some(value: T)

  /** Either a value or the error that stopped the computation. */
  datatype Result<T, E> = Ok(value: T) | Err(error: E)
}

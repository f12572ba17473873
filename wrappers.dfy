/** Option and Result, the two failure-carrying shapes the model uses for Go's
    nil pointers and its `(value, error)` returns. */
module Wrappers {

  datatype Option<+T> = None | Some(value: T)

  /** Go's `(T, error)` pair: exactly one of the two is meaningful. */
  datatype Result<+T, +E> = Ok(value: T) | Err(error: E)
}

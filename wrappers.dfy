/** Option and Result, the two failure-carrying shapes the model uses. */
module Wrappers {

  /** Python's Optional[T]: None or a value. */
  datatype Option<+T> = None | Some(value: T)

  /** A value, or the error a Python function would raise instead of returning. */
  datatype Result<+T, +E> = Ok(value: T) | Err(error: E)
}

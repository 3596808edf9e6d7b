/** Option and Result values used throughout the model. */
module Wrappers {

  /** Python's `None` or a present value. */
  datatype Option<+T> = None | Some(value: T)

  /** A value, or the exception that the Python code would raise instead. */
  datatype Result<+T, +E> = Ok(value: T) | Err(error: E)
}

/** Option and Result datatypes shared by the rest of the model. */
module Wrappers {

  /** A value that may be absent, as Python's `None` default arguments are. */
  datatype Option<+T> = None | Some(value: T)

  /** Either a value or the exception the Python code would raise instead. */
  datatype Result<+T, +E> = Ok(value: T) | Err(error: E)
}

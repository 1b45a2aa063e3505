/** Success/failure result used wherever the Python code raises an exception. */
module Wrappers {
  datatype Result<+T, +E> = Ok(value: T) | Err(error: E)
}

/** Wrappers used across the model: a value that may be
    absent (Python's `None`) and a result that may be an error (an exception
    the callback would raise). */
module Wrappers {

  datatype Option<+T> = None | Some(value: T)

  datatype Result<+R, +E> = Ok(value: R) | Err(error: E)
}

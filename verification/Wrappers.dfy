/** Optional values and error returns, used where the program returns `(value, error)` or a nil pointer. */
module Wrappers {
  datatype Option<+T> = None | Some(value: T)

  datatype Result<+T, +E> = Ok(value: T) | Err(error: E)
}

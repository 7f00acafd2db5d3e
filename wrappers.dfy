/** Optional values and error-or-value results, standing for Go's `(T, error)` returns. */
module Wrappers {

  datatype Option<+T> = None | Some(value: T)

  /** Either a value or the error that prevented computing it. */
  datatype Result<+T, +E> = Ok(value: T) | Err(error: E)
}

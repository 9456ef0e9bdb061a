/** Optional values and results with an error, used for the source's nulls and exceptions. */
module Wrappers {

  /** A value that may be absent: the source's nullable references. */
  datatype Option<+T> = None | Some(value: T)

  /** Either a value or the error that the source would have thrown. */
  datatype Result<+T, +E> = Ok(value: T) | Err(error: E)
}

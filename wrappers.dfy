/** Option and Result, the two shapes the cache's answers take. */
module Wrappers {

  /** Ruby's `nil`-or-value, made explicit. */
  datatype Option<+T> = None | Some(value: T)

  /** A value, or the exception Ruby would raise instead. */
  datatype Result<+T, +E> = Ok(value: T) | Err(error: E)
}

/** Optional values and results, standing in for Go's nil-able values and
    (value, error) pairs. */
module Wrappers {

  /** A value that may be missing: `None` plays the part of Go's `nil`. */
  datatype Option<+T> = None | Some(value: T)

  /** The outcome of an operation that returns either a value or an error. */
  datatype Result<+T, +E> = Ok(value: T) | Err(error: E)
}

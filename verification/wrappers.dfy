/** Optional values and results, standing in for Go's nil pointers and (value, error) pairs. */
module Wrappers {

  /** A value that may be absent: `None` plays the role of a nil pointer or a nil error. */
  datatype Option<+T> = None | Some(value: T)

  /** Either a value or an error, for Go functions that return `(T, error)`. */
  datatype Result<+R, +E> = Success(value: R) | Failure(error: E)
}

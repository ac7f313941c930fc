/** Optional values and results, standing in for Go's nil-able values and (value, error) pairs. */
module Wrappers {

  /** A value that may be absent (a nil error, a NULL column, a missing function name). */
  datatype Option<+T> = None | Some(value: T)

  /** A (value, error) pair in which exactly one side is meaningful. */
  datatype Result<+T, +E> = Success(value: T) | Failure(error: E)
}

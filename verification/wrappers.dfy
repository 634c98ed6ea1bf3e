/** Option and Result, for Go's nil values and `(value, error)` pairs. */
module Wrappers {

  /** A value that may be absent: Go's nil map, or a nil error. */
  datatype Option<+T> = None | Some(value: T)

  /** Go's `(*T, error)` pair: exactly one of the two is meaningful. */
  datatype Result<+T, +E> = Success(value: T) | Failure(error: E)
}

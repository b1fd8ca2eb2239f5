/** Failure-compatible wrappers used throughout the model: an optional value and a
    value-or-error result, standing in for Go's `nil` checks and `(T, error)` pairs. */
module Wrappers {

  /** An optional value: `None` plays the part of Go's `nil`. */
  datatype Option<+T> = None | Some(value: T)

  /** A value or an error, as returned by Go functions of shape `(T, error)`. */
  datatype Result<+R, +E> = Success(value: R) | Failure(error: E)
}

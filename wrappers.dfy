/** Failure-compatible wrappers used throughout the model: `Option` for a value
    that may be absent (a nil pointer, a missing key) and `Result` for Go's
    `(value, error)` return pairs. */
module Wrappers {

  datatype Option<+T> = None | Some(value: T)

  datatype Result<+R, +E> = Success(value: R) | Failure(error: E)
}

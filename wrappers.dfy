/** Option and Result wrappers used for the source's nil-able values and
    (value, error) returns. */
module Wrappers {

  /** A value that may be absent (a Go nil reference, channel or function). */
  datatype Option<+T> = None | Some(value: T)

  /** Either a value or an error: Go's `(value, error)` pair, where exactly
      one of the two is non-nil. */
  datatype Result<+R, +E> = Success(value: R) | Failure(error: E)
}

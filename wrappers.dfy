/** Failure-carrying values used in place of Go's nil pointers and (value, error) pairs. */
module Wrappers {
  /** A Go slice or pointer that may be nil. */
  datatype Option<+T> = None | Some(value: T)

  /** A Go `(value, error)` pair in which exactly one side is meaningful. */
  datatype Result<+R, +E> = Success(value: R) | Failure(error: E)
}

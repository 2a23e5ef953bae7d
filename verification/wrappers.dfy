/** Failure-carrying datatypes used to model Go's `(value, error)` returns. */
module Wrappers {

  /** A value that may be absent: Go's nil pointer, or a lookup that found nothing. */
  datatype Option<+T> = None | Some(value: T)

  /** A value or an error message: Go's `(value, err)` pair where exactly one is meaningful. */
  datatype Result<+T, +E> = Success(value: T) | Failure(error: E)
}

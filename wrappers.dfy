/** Failure-carrying values shared by the whole model. Go's `(value, error)` pairs
    become `Result`, and Go's nil-able pointers become `Option`. */
module Wrappers {

  datatype Option<+T> = None | Some(value: T)

  /** A Go `(T, error)` return: `Success` when the error is nil. */
  datatype Result<+T, +E> = Success(value: T) | Failure(error: E)
}

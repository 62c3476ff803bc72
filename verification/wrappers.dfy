/** Failure-carrying values shared by the whole model. */
module Wrappers {

  /** A value that may be absent; a Go `error` that may be `nil` is an `Option<Error>`. */
  datatype Option<+T> = None | Some(value: T)

  /** A Go `(value, err)` pair where exactly one half is meaningful. */
  datatype Result<+T, +E> = Success(value: T) | Failure(error: E)
}

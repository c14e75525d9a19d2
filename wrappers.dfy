/** Option and Result, the stock failure-carrying datatypes used throughout the model.
    A Go `error` that may be nil is an `Option<Error>`; a `(value, error)` pair is a `Result`. */
module Wrappers {
  datatype Option<+T> = None | Some(value: T)

  datatype Result<+R, +E> = Success(value: R) | Failure(error: E)
}

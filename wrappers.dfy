/** Option and Result, the two failure-carrying shapes used throughout the model.
    Option stands for Go's nil-able pointers and maps; Result for a Go `(value, error)` pair. */
module Wrappers {

  datatype Option<+T> = None | Some(value: T)

  datatype Result<+T, +E> = Success(value: T) | Failure(error: E)
}

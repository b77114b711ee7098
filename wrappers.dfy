/** Option and Result values used for the nil-able pointers and the `(value, error)`
    pairs that the Go code returns. */
module Wrappers {

  datatype Option<+T> = None | Some(value: T)

  datatype Result<+T, +E> = Success(value: T) | Failure(error: E)
}

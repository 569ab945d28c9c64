/** The `Option` and `Result` datatypes used throughout the model: `Option` for a value
    that may be absent (a nil pointer, a decode that did not succeed) and
    `Result` for a Go `(value, error)` pair. */
module Wrappers {

  datatype Option<+T> = None | Some(value: T)

  datatype Result<+R, +E> = Success(value: R) | Failure(error: E)
}

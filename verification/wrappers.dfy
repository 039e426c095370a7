/** Failure-carrying datatypes used across the model: `Option` for values that may be
    absent (a nil pointer, an optional error) and `Result` for calls that either produce
    a value or fail (a Go `error` return or a panic). */
module Wrappers {

  datatype Option<+T> = None | Some(value: T)

  datatype Result<+T, +E> = Ok(value: T) | Err(error: E)
}

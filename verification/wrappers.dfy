/** Failure-carrying values shared by the other modules: Go's `error` return
    (nil or not) is an Option, and a `(value, error)` pair is a Result. */
module Wrappers {

  datatype Option<+T> = None | Some(value: T)

  datatype Result<+T, +E> = Ok(value: T) | Err(error: E)
}

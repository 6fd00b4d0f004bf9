/** Failure-carrying values used throughout the model. A Go `error` is modelled as
    `Option<string>`: `None` is a nil error, `Some(m)` an error whose `Error()` is `m`. */
module Wrappers {

  datatype Option<+T> = None | Some(value: T)

  datatype Result<+R, +E> = Success(value: R) | Failure(error: E)
}

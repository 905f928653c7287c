/** Option, Result and Outcome: the model's stand-ins for Go's nil pointers
    and `error` return values. */
module Wrappers {

  datatype Option<+T> = None | Some(value: T)

  datatype Result<+T, +E> = Ok(value: T) | Err(error: E)

  /** The result of a Go function that returns only an `error`: Pass is nil. */
  datatype Outcome<+E> = Pass | Fail(error: E)
}

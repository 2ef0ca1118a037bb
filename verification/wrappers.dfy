/** Failure-carrying values used across the model: an optional value (a JavaScript
    `null`/`undefined` slot) and a result that is either a value or an error message. */
module Wrappers {

  datatype Option<+T> = None | Some(value: T)

  datatype Result<+R, +E> = Success(value: R) | Failure(error: E)
}

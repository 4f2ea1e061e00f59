/** Option and Result, used for values the JavaScript code leaves `undefined`/`null`
    and for operations that throw. */
module Wrappers {

  datatype Option<+T> = None | Some(value: T)

  /** `Failure` carries the message of the error the JavaScript code throws. */
  datatype Result<+T, +E> = Success(value: T) | Failure(error: E)
}

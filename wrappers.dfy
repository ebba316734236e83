/** Option, Result and Outcome: the optional values and settled promises of the handler. */
module Wrappers {

  /** A value that may be `undefined`. */
  datatype Option<+T> = None | Some(value: T) {

    /** The `??` operator: the value when present, otherwise `default`. */
    function GetOr(default: T): T {
      match this
      case Some(v) => v
      case None => default
    }
  }

  /** A promise that resolved with `value` or rejected with `error`. */
  datatype Result<+R, +E> = Success(value: R) | Failure(error: E)

  /** A promise whose resolved value is not used: it passed, or it failed with a message. */
  datatype Outcome = Pass | Fail(message: string)
}

/** Option and Result values for the optional fields and thrown errors of the SDK. */
module Wrappers {

  datatype Option<+T> = None | Some(value: T) {
    function GetOr(default: T): T {
      match this
      case Some(v) => v
      case None => default
    }
  }

  /** A computation that either returns a value or throws an error with a message. */
  datatype Result<+T> = Success(value: T) | Failure(error: string)
}

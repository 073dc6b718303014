/** Option and Result values shared by every module of the model. */
module Wrappers {

  /** A value that may be absent: TypeScript's `T | null` and `T | undefined`. */
  datatype Option<+T> = None | Some(value: T) {
    function GetOr(default: T): T {
      match this
      case Some(v) => v
      case None => default
    }
  }

  /** The outcome of a call that can throw: the value it resolves to, or the message of the error it rejects with. */
  datatype Result<+T> = Success(value: T) | Failure(error: string)
}

/** Option and Result, used for absent values and for the outcomes of remote calls. */
module Wrappers {

  datatype Option<+T> = None | Some(value: T) {
    function GetOr(default: T): T {
      match this
      case Some(v) => v
      case None => default
    }
  }

  /** The outcome of a remote call: a value, or a failure the caller catches. */
  datatype Result<+T> = Success(value: T) | Failure(reason: string)
}

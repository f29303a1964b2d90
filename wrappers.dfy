/** Optional values and the outcome of a validation cascade. */
module Wrappers {

  datatype Option<+T> = None | Some(value: T) {
    function GetOr(default: T): T {
      match this
      case Some(v) => v
      case None => default
    }
  }

  /** Either the cleaned-up form values or the first reason the form was rejected. */
  datatype Result<+R, +E> = Success(value: R) | Failure(error: E)
}

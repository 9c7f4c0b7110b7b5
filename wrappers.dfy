/** Optional values and results with an error, for the adapters' missing fields and thrown errors. */
module Wrappers {

  datatype Option<+T> = None | Some(value: T) {

    /** The value, or `default` when there is none (the `?.` ... `|| default` chains of the adapters). */
    function GetOr(default: T): T {
      match this
      case Some(v) => v
      case None => default
    }
  }

  /** A returned value, or the message of the `Error` the adapter throws. */
  datatype Result<+R, +E> = Success(value: R) | Failure(error: E)
}

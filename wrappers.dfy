/** Option and Result: a JavaScript `null`/absent value and a thrown `Error`. */
module Wrappers {

  /** `T | null`, or an optional property that may be absent. */
  datatype Option<+T> = None | Some(value: T) {
    function GetOr(default: T): T {
      match this
      case Some(v) => v
      case None => default
    }
  }

  /** The outcome of a call that either returns a value or throws. */
  datatype Result<+T, +E> = Success(value: T) | Failure(error: E)
}

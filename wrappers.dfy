/** Option and Result, used for the source's `null`/`undefined` results and thrown errors. */
module Wrappers {

  /** `None` stands for JavaScript's `null` or `undefined`, whichever the source returns. */
  datatype Option<+T> = None | Some(value: T) {
    function GetOr(default: T): T {
      match this
      case Some(v) => v
      case None => default
    }
  }

  /** `Failure` carries the message of an `Error` the source throws. */
  datatype Result<+R, +E> = Success(value: R) | Failure(error: E)
}

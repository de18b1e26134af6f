/** Option and Result: the `undefined`/`null` and the thrown-or-returned error of the source. */
module Wrappers {

  /** A value that may be missing (`undefined` or `null` in the source). */
  datatype Option<+T> = None | Some(value: T) {
    function GetOr(default: T): T {
      match this
      case Some(v) => v
      case None => default
    }
  }

  /** Either a value or the error that the source throws or returns. */
  datatype Result<+T, +E> = Ok(value: T) | Err(error: E)
}

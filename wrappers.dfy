/** Optional values and results: `undefined`/`null` and early-return error paths of the catalogue code. */
module Wrappers {

  datatype Option<+T> = None | Some(value: T) {

    /** The value, or `default` when absent (the `??` operator). */
    function GetOr(default: T): T {
      match this
      case Some(v) => v
      case None => default
    }
  }

  /** Either a value or the message the form shows instead. */
  datatype Result<+R, +E> = Ok(value: R) | Err(error: E)
}

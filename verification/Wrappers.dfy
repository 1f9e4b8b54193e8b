/** The two wrapper types every other module uses. */
module Wrappers {

  datatype Option<+T> = None | Some(value: T) {
    /** The wrapped value, or `fallback` when there is none. */
    function GetOr(fallback: T): T {
      match this
      case Some(v) => v
      case None => fallback
    }
  }

  /** The outcome of a conversion that may reject its input. */
  datatype Result<+T, +E> = Ok(value: T) | Err(error: E)
}

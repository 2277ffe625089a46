/** Failure-carrying datatypes shared by the whole model. */
module Wrappers {

  /** A value that may be missing: a key absent from a mapping, an API call that
      returned nothing. */
  datatype Option<+T> = None | Some(value: T) {
    /** The carried value, or `default` when there is none. */
    function GetOr(default: T): T {
      match this
      case Some(v) => v
      case None => default
    }
  }

  /** A computation that either succeeds with a value or fails with an error. */
  datatype Result<+R, +E> = Ok(value: R) | Err(error: E)
}

/** Optional values and results with an error, used for TypeScript's
    optional record keys (`key?: T`) and for the one thrown error. */
module Wrappers {

  /** An optional value: `None` stands for a key that is absent or `undefined`. */
  datatype Option<+T> = None | Some(value: T) {

    /** The value when present, otherwise `default`. */
    function GetOr(default: T): T {
      match this
      case Some(v) => v
      case None => default
    }
  }

  /** Either a value or the error that would have been thrown. */
  datatype Result<+T, +E> = Ok(value: T) | Err(error: E)
}

/** Optional values and fallible results shared by every module. */
module Wrappers {

  /** A value that may be missing: TypeScript's `T | undefined` (or `T | null`). */
  datatype Option<+T> = None | Some(value: T) {

    /** The `??` operator: the wrapped value, or `default` when it is missing. */
    function GetOr(default: T): T {
      match this
      case Some(v) => v
      case None => default
    }
  }

  /** The outcome of a schema parse: the parsed value, or what was wrong with the input. */
  datatype Result<+R, +E> = Ok(value: R) | Err(error: E)
}

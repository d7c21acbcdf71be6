/** Optional values and success/failure results, standing for the
    `undefined`/`null` values and early error returns of the TypeScript code. */
module Wrappers {

  datatype Option<+T> = None | Some(value: T) {
    /** The `??` operator: the value if present, else `default`. */
    function GetOr(default: T): T {
      match this
      case Some(v) => v
      case None => default
    }
  }

  datatype Result<+R, +E> = Success(value: R) | Failure(error: E)
}

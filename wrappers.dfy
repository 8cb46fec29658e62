/** Optional values: the model's stand-in for TypeScript's `T | undefined`. */
module Wrappers {

  datatype Option<+T> = None | Some(value: T) {

    /** The `??` operator: the value if present, otherwise the default. */
    function GetOr(default: T): T {
      match this
      case Some(v) => v
      case None => default
    }
  }
}

/**
 * Option, used wherever the source has a value that may be `undefined`
 * (a missing key, a `find` that matched nothing) or an operation that may
 * throw a TypeError (None then stands for the throw).
 */
module Wrappers {

  datatype Option<+T> = None | Some(value: T) {

    /** The value, or `default` when there is none. */
    function GetOr(default: T): T {
      match this
      case Some(v) => v
      case None => default
    }
  }
}

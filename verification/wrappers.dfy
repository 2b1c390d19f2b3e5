/** Failure-compatible wrapper types shared by the model. */
module Wrappers {

  /** A value that may be absent: JavaScript's `undefined` result of a lookup
      or of `Array.prototype.find`. */
  datatype Option<+T> = None | Some(value: T) {

    /** The wrapped value, or `default` when absent (JavaScript's `??`). */
    function GetOr(default: T): T {
      match this
      case Some(v) => v
      case None => default
    }
  }
}

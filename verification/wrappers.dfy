/** Failure-compatible wrappers shared by the whole model. */
module Wrappers {

  /** An optional value: `undefined` on the TypeScript side. */
  datatype Option<+T> = None | Some(value: T) {
    /** The value, or `default` when absent (TypeScript's `??`). */
    function GetOr(default: T): T {
      match this
      case Some(v) => v
      case None => default
    }
  }

  /** A value or an error, used where the source throws. */
  datatype Result<+R, +E> = Success(value: R) | Failure(error: E)
}

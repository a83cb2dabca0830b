/** Optional values and results with an error, as the TypeScript code uses
    `undefined` and thrown validation errors. */
module Wrappers {

  /** `undefined` (None) or a present value. */
  datatype Option<+T> = None | Some(value: T) {

    /** The value, or `default` when absent (the `x ?? default` idiom). */
    function GetOr(default: T): T {
      match this
      case Some(v) => v
      case None => default
    }
  }

  /** The outcome of a validation: the accepted value or the reasons it was refused. */
  datatype Result<+R, +E> = Success(value: R) | Failure(error: E)
}

/** Small wrapper datatypes shared by every module of the model. */
module Prelude {

  /** A value that may be absent: TypeScript's `T | null | undefined`. */
  datatype Option<+T> = None | Some(value: T) {
    /** The value, or `default` when absent (the source's `x || default` on a non-empty value). */
    function GetOr(default: T): T {
      match this
      case Some(v) => v
      case None => default
    }
  }

  /** The outcome of an operation that may throw: a value or the error message. */
  datatype Result<+R> = Success(value: R) | Failure(error: string)
}

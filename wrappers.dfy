/** Failure-carrying values shared by every module of the model.
    Python's `None` becomes `Option.None`; a raised exception becomes
    `Result.Fail` naming the exception class. */
module Wrappers {

  datatype Option<+T> = None | Some(value: T) {
    /** The value, or a default when there is none (Python's `x if x is not None else d`). */
    function GetOr(default: T): T {
      match this
      case Some(v) => v
      case None => default
    }
  }

  /** The Python exception classes the modelled code can raise. */
  datatype Error = ValueError | KeyError | IndexError | TypeError

  datatype Result<+T> = Ok(value: T) | Fail(error: Error)
}

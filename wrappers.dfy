/** Failure-compatible helper datatypes shared by every module of the model. */
module Wrappers {

  /** `Some(v)` for a present value; `None` where the source has `undefined` or `null`. */
  datatype Option<+T> = None | Some(value: T) {

    function GetOr(default: T): T {
      match this
      case Some(v) => v
      case None => default
    }
  }

  /** The outcome of a step that can throw: `Ok(v)` or `Err(e)` carrying the thrown error. */
  datatype Result<+R, +E> = Ok(value: R) | Err(error: E)
}

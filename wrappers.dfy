/** Optional values and failure outcomes shared by the ledger modules. */
module Wrappers {

  /** A parameter the user may leave blank: None stands for a blank field. */
  datatype Option<+T> = None | Some(value: T) {
    function GetOr(default: T): T {
      match this
      case Some(v) => v
      case None => default
    }
  }

  /** The value of an operation that may be refused with an error. */
  datatype Result<+R, +E> = Ok(value: R) | Err(error: E)

  /** The outcome of a void operation that may throw: Pass, or Fail with the error thrown. */
  datatype Outcome<+E> = Pass | Fail(error: E)
}

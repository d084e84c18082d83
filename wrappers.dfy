/** Optional values and failure results shared by the whole model. */
module Wrappers {

  datatype Option<+T> = None | Some(value: T) {
    function GetOr(default: T): T {
      match this
      case Some(v) => v
      case None => default
    }
  }

  /** A run that either produced a value or stopped at one of the source's
      hard failures (a failed assertion, an uncaught exception, an abort). */
  datatype Result<+T> = Ok(value: T) | Err(reason: string)
}

/** Optional values and validation outcomes shared by every component. */
module Wrappers {

  /** `undefined` / `null` versus a present value. */
  datatype Option<+T> = None | Some(value: T) {
    function GetOr(default: T): T {
      match this
      case Some(v) => v
      case None => default
    }
  }

  /** A handler either produces its value or stops with the message it would alert. */
  datatype Result<+T, +E> = Ok(value: T) | Err(error: E)
}

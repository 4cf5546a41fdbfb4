/** Result types for the source's nullable fields and thrown errors. */
module Wrappers {
  datatype Option<+T> = None | Some(value: T) {
    function GetOr(default: T): T {
      match this
      case Some(v) => v
      case None => default
    }
  }

  /** A call that either returns a value or throws. */
  datatype Result<+T> = Ok(value: T) | Err
}

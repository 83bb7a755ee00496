/** Optional values and failures shared by every module of the model.
    `Option` stands for a TypeScript field that may be `undefined` (or a
    Python key that may be missing); `Result` stands for a call that may
    throw, carrying the name of the exception. */
module Wrappers {

  datatype Option<+T> = None | Some(value: T) {
    /** The `??` operator: the value when present, else the default. */
    function GetOr(default: T): T {
      match this
      case Some(v) => v
      case None => default
    }
  }

  datatype Result<+T> = Ok(value: T) | Err(error: string)
}

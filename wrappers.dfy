/** Optional values, the errors the TypeScript code throws, and results that carry either. */
module Wrappers {

  datatype Option<T> = None | Some(value: T) {
    function GetOr(default: T): T {
      match this
      case Some(v) => v
      case None => default
    }
  }

  /** A thrown JavaScript `Error`: only its message is ever read by the code modelled here. */
  datatype Error = Error(message: string)

  /** The outcome of an operation that either returns a value or throws an `Error`. */
  datatype Result<T> = Ok(value: T) | Err(error: Error)
}

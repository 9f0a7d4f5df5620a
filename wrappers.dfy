/** Option and Result carriers used throughout the model. */
module Wrappers {

  datatype Option<+T> = None | Some(value: T) {
    function GetOr(default: T): T
    {
      match this
      case Some(v) => v
      case None => default
    }
  }

  /** Err carries the text of the exception the source would raise. */
  datatype Result<+R> = Ok(value: R) | Err(error: string)
}

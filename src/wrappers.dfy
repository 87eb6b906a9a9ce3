/**
 * Option and Result values shared by every module of the model.
 */
module Wrappers {

  datatype Option<T> = None | Some(value: T)
  {
    /** The contained value, or `default` when there is none. */
    function GetOr(default: T): T
    {
      match this
      case None => default
      case Some(v) => v
    }
  }

  datatype Result<T, E> = Ok(value: T) | Err(error: E)
}

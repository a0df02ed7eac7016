/** Option and Result values shared by every module of the model. */
module Wrappers {

  /** A key that may be absent from a Python dictionary, or a value that may be None. */
  datatype Option<T> = None | Some(value: T) {

    /** The value, or `default` when absent (Python's `dict.get(key, default)`). */
    function GetOr(default: T): T {
      match this
      case Some(v) => v
      case None => default
    }
  }

  /** The outcome of a Python call: a returned value, or an exception that propagated. */
  datatype Result<T> = Ok(value: T) | Raised(exception: string)
}

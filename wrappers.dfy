/** Optional values and results with an error, the two shapes the model needs
    for Python's "key may be absent" and "call may raise". */
module Wrappers {

  /** `None` stands for a key that is absent from a Python dict. */
  datatype Option<T> = None | Some(value: T) {

    /** Python's `d.get(key, default)`: the value when present, else `default`. */
    function GetOr(default: T): T {
      match this
      case Some(v) => v
      case None => default
    }
  }

  /** `Err` stands for an exception that propagates to the caller. */
  datatype Result<T, E> = Ok(value: T) | Err(error: E)
}

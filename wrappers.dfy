/** Optional values, results, and the Python exceptions the modelled code can raise. */
module Wrappers {

  /** A dictionary key that may be absent: `None` is "key not present". */
  datatype Option<+T> = None | Some(value: T)
  {
    /** `d.get(key, default)` */
    function GetOr(default: T): T
    {
      match this
      case Some(v) => v
      case None => default
    }
  }

  datatype Result<+T, +E> = Ok(value: T) | Err(error: E)

  /** The exceptions raised by the modelled functions. */
  datatype PyError =
    | KeyError(key: string)  // a dictionary lookup of a missing key
    | IndexError             // `[0]` on an empty list
}

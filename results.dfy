/** Optional values and results with an error, shared by the other modules. */
module Results {

  /** A value that may be absent (JavaScript `undefined` or `null`). */
  datatype Option<+T> = None | Some(value: T) {
    /** The value, or `default` when absent (JavaScript `x ?? default`). */
    function GetOr(default: T): T {
      match this
      case Some(v) => v
      case None => default
    }
  }

  /** The outcome of a call that may throw: the value, or the error it raised. */
  datatype Result<+T, +E> = Ok(value: T) | Err(error: E)
}

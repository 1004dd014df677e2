/** Optional values and results, used wherever the source has `undefined`/`null`
    or a thrown error. */
module Options {

  datatype Option<+T> = None | Some(value: T) {

    /** The value, or a default when absent (the JavaScript `x ?? d`). */
    function GetOr(default: T): T {
      match this
      case Some(v) => v
      case None => default
    }
  }

  datatype Result<+T, +E> = Ok(value: T) | Err(error: E)
}

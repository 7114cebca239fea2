/** Optional values and success-or-error results shared by the client and the CLI. */
module Results {

  /** A JavaScript property that may be absent. */
  datatype Option<+T> = None | Some(value: T) {
    /** The value when present, `default` otherwise. */
    function GetOr(default: T): T {
      match this
      case Some(v) => v
      case None => default
    }
  }

  /** A resolved (`Success`) or rejected (`Failure`) outcome. */
  datatype Result<+R, +E> = Success(value: R) | Failure(error: E)
}

/** The tagged outcomes the model passes around: an optional value, and the
    uniform success/failure shape every client operation returns (the
    `{"success": ..., "error": ...}` dictionaries of the client). */
module Results {

  datatype Option<+T> = None | Some(value: T) {
    /** `dict.get(key, default)` once the lookup has been made. */
    function GetOr(default: T): T {
      match this
      case Some(v) => v
      case None => default
    }
  }

  /** `Success` carries the payload, `Failure` the human-readable error text. */
  datatype Result<+T> = Success(value: T) | Failure(error: string)
}

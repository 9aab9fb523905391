/** Small value wrappers shared by every module of the model. */
module Common {

  /** A Python value that may be `None`. */
  datatype Option<+T> = None | Some(value: T) {
    /** `d.get(key, default)`-style access: the value, or `default` when absent. */
    function GetOr(default: T): T {
      match this
      case Some(v) => v
      case None => default
    }
  }

  /** The outcome of a Python call that may raise: `Raised` carries the exception's message. */
  datatype Try<+T> = Ok(value: T) | Raised(message: string)
}

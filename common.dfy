/** Small shared datatypes used across the model. */
module Common {

  /** A value that may be absent: JavaScript's `undefined` or `null` where the model needs it. */
  datatype Option<T> = None | Some(value: T) {
    function GetOr(default: T): T {
      match this
      case Some(v) => v
      case None => default
    }
  }
}

/** Values shared by every part of the model: an optional value, standing for
    JavaScript's `undefined`/`null` next to a present value. */
module Common {

  datatype Option<T> = None | Some(value: T) {

    /** The value if present, otherwise `default` (JavaScript's `x ?? default`). */
    function GetOr(default: T): T {
      match this
      case Some(v) => v
      case None => default
    }
  }
}

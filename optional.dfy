/** A value that may be missing: JavaScript's `undefined` / `null` for a field
    or a response body that the server may leave out. */
module Optional {

  datatype Option<+T> = None | Some(value: T) {

    /** The value, or `default` when it is missing. This is JavaScript's
        `x || default` wherever the value cannot be falsy; where it can (a
        `0` level, an empty name) the falsy case is written out. */
    function GetOr(default: T): T {
      match this
      case Some(v) => v
      case None => default
    }
  }
}

/** The Some/None wrapper used for values that may be absent (a missing key,
    an `undefined` option, a parse that fails). */
module Optional {

  datatype Option<+T> = None | Some(value: T) {

    /** The wrapped value, or `default` when there is none. */
    function GetOr(default: T): T
    {
      match this
      case Some(v) => v
      case None => default
    }
  }
}

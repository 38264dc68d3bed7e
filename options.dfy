/** The optional value used wherever the Python code returns `None` or looks a key up with `get`. */
module Options {

  datatype Option<+T> = None | Some(value: T) {

    /** `value` when present, `default` otherwise (Python's `x if x is not None else default`). */
    function GetOr(default: T): T {
      match this
      case Some(v) => v
      case None => default
    }
  }
}

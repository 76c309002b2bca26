/** The optional value that stands for Python's `None` default arguments. */
module Options {

  datatype Option<T> = None | Some(value: T) {

    /** The value when present, `default` otherwise (Python's `x if x is not None else default`). */
    function GetOr(default: T): T {
      match this
      case Some(v) => v
      case None => default
    }
  }
}

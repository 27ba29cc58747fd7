/** The optional value returned by a queue pop and by number parsing. */
module Options {
  datatype Option<T> = None | Some(value: T) {
    /** Rust's `Option::unwrap_or`. */
    function UnwrapOr(default: T): T {
      match this
      case Some(v) => v
      case None => default
    }
  }
}

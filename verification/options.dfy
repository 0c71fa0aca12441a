/** An optional value: a JSON field that may be absent, or a value that may be missing. */
module Options {

  datatype Option<T> = None | Some(value: T) {

    /** The carried value when there is one, and `fallback` otherwise. */
    function ValueOr(fallback: T): T {
      if Some? then value else fallback
    }
  }
}

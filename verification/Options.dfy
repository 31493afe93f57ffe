/** The optional values that several parts of the model share. */
module Options {
  datatype Option<+T> = None | Some(value: T) {
    function OrElse(fallback: T): T {
      if Some? then value else fallback
    }
  }
}

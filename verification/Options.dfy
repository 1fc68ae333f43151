/** The conventional optional value, for Go's "value, ok" and "value, err" results. */
module Options {
  datatype Option<+T> = None | Some(value: T) {
    function Or(default: T): T {
      if Some? then value else default
    }
  }
}

/** Nullable columns and optional values. */
module Options {

  datatype Option<T> = None | Some(value: T) {

    /** SQL COALESCE(this, default); Python `this or default`. */
    function GetOr(default: T): T {
      if Some? then value else default
    }

    /** SQL COALESCE over two nullable columns. */
    function OrElse(other: Option<T>): Option<T> {
      if Some? then this else other
    }
  }
}

/** A value that may be missing: pandas' NaN for a cell, or a parse that failed. */
module Optional {

  datatype Option<+T> = None | Some(value: T) {

    /** The value, or `default` when missing (pandas' fillna). */
    function GetOr(default: T): T {
      match this
      case Some(v) => v
      case None => default
    }
  }
}

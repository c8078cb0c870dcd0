/** Values that may be absent: the source's `null` and `undefined`. */
module Options {
  datatype Option<+T> = None | Some(value: T) {
    function GetOr(fallback: T): T {
      match this
      case None => fallback
      case Some(v) => v
    }
  }

  /** The source's `left ?? right`. */
  function Coalesce<T>(left: Option<T>, right: Option<T>): Option<T> {
    if left.Some? then left else right
  }
}

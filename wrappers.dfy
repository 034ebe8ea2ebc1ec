/** Optional values, standing for Python's `Optional[...]` (None or a value). */
module Wrappers {
  datatype Option<+T> = None | Some(value: T) {
    predicate IsNone() { this.None? }

    function GetOr(default: T): T {
      match this
      case None => default
      case Some(v) => v
    }
  }

  /** Python's `a or b` on two optional values: the first one that is present. */
  function OrElse<T>(a: Option<T>, b: Option<T>): (r: Option<T>)
    ensures a.Some? ==> r == a
    ensures a.None? ==> r == b
  {
    if a.Some? then a else b
  }
}

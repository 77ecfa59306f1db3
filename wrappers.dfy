/** The optional value that stands for a Java reference that may be null,
    or for an Intent extra that may be absent. */
module Wrappers {

  datatype Option<T> = None | Some(value: T) {

    /** The value, or `default` when there is none (the `getXxxExtra(name, default)` lookups). */
    function GetOr(default: T): (r: T)
      ensures Some? ==> r == value
      ensures None? ==> r == default
    {
      match this
      case Some(v) => v
      case None => default
    }
  }
}

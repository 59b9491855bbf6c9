/** A nullable value: JavaScript's `T | null` (and `undefined`, which the
    modelled code treats the same way through `?.` and `||`). */
module Wrappers {

  datatype Option<+T> = None | Some(value: T) {

    /** The wrapped value, or `default` when there is none. */
    function GetOr(default: T): T {
      match this
      case Some(v) => v
      case None => default
    }
  }
}

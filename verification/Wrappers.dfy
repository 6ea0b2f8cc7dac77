/** The optional values and list properties shared by the modules of the model. */
module Wrappers {

  /** A nullable column or an optional property. */
  datatype Option<+T> = None | Some(value: T) {

    /** The encapsulated value, or `default` when there is none (the source's `??`). */
    function GetOr(default: T): T {
      match this
      case Some(v) => v
      case None => default
    }
  }

  predicate Distinct<T(==)>(s: seq<T>) {
    forall i, j | 0 <= i < j < |s| :: s[i] != s[j]
  }
}

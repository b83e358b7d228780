/** Optional values: a JSON key that may be absent from a backend reply. */
module Wrappers {

  datatype Option<T> = None | Some(value: T) {

    /** The value when present, otherwise `default` (Python's `dict.get(key, default)`). */
    function GetOr(default: T): T {
      match this
      case Some(v) => v
      case None => default
    }
  }
}

/** Optional values: `None` stands for Python's `None`, a missing attribute or an
    exception raised by a library call the model does not look inside. */
module Wrappers {
  datatype Option<+T> = None | Some(value: T) {
    function GetOr(default: T): T {
      match this
      case Some(v) => v
      case None => default
    }
  }
}

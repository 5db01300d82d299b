/** Optional values: an absent option, a `null` argument, a ray that hit nothing. */
module Wrappers {
  datatype Option<+T> = None | Some(value: T)
  {
    function GetOr(default: T): T {
      match this
      case Some(v) => v
      case None => default
    }
  }
}

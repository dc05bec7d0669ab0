/** Optional values, used for the source's `None` and for dispatch that can fail. */
module Wrappers {
  datatype Option<+T> = None | Some(value: T)
}

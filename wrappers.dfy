/** Optional values, for references the page keeps that may be null. */
module Wrappers {
  datatype Option<+T> = None | Some(value: T)
}

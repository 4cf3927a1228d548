/** Optional values, for route state and lookups that may find nothing. */
module Wrappers {
  datatype Option<+T> = None | Some(value: T)
}

/** Optional values, for the lookups and outcomes that may be absent. */
module Wrappers {
  datatype Option<+T> = None | Some(value: T)
}

/** Optional values, used for lookups that may find nothing (JavaScript's `undefined`). */
module Wrappers {
  datatype Option<+T> = None | Some(value: T)
}

/** Optional values, for JavaScript's `null`/`undefined` and for outcomes that may be absent. */
module Wrappers {
  datatype Option<+T> = None | Some(value: T)
}

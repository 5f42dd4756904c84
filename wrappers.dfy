/** Optional values: JavaScript's `null`/`undefined` and SQL's NULL. */
module Wrappers {
  datatype Option<+T> = None | Some(value: T)
}

/** Optional values: stands for TypeScript's `T | null` and for a missing key. */
module Wrappers {
  datatype Option<+T> = None | Some(value: T)
}

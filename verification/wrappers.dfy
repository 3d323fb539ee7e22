/** Optional values, standing in for TypeScript's `T | undefined`. */
module Wrappers {

  /** `None` is an absent (undefined) value, `Some(v)` a present one. */
  datatype Option<+T> = None | Some(value: T)
}

/** Optional values: the model's stand-in for TypeScript's `T | undefined | null`. */
module Wrappers {

  datatype Option<+T> = None | Some(value: T)
}

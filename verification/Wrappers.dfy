/** Optional values, as used for absent HASH fields and absent keys. */
module Wrappers {
  datatype Option<+T> = None | Some(value: T)
}

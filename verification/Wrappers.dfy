/** Optional values, used wherever the source has a nullable column or returns None. */
module Wrappers {
  datatype Option<+T> = None | Some(value: T)
}

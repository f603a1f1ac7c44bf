/** Optional values: a missing object key, a failed parse, a failed fetch. */
module Wrappers {

  datatype Option<+T> = None | Some(value: T)
}

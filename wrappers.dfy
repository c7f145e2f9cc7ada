/** Optional values: stand for the source's NULL pointers and "not found" results. */
module Wrappers {
  datatype Option<T> = None | Some(value: T)
}

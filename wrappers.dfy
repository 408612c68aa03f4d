/** Optional values, for fields an update may or may not carry. */
module Wrappers {

  datatype Option<+T> = None | Some(value: T)
}

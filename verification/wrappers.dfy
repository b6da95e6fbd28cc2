/** Optional values: a field or parameter that may be absent. */
module Wrappers {

  datatype Option<+T> = None | Some(value: T)
}

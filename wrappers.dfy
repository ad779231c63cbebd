/** Optional values: Go's nil pointer or absent value, made explicit. */
module Wrappers {

  datatype Option<+T> = None | Some(value: T)
}

/** Optional values: the model's stand-in for Go's nil-able pointers and errors. */
module Wrappers {

  datatype Option<+T> = None | Some(value: T)
}

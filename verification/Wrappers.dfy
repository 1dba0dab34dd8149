/** Optional values, used where the Go code has a nil pointer or a missing map entry. */
module Wrappers {

  datatype Option<+T> = None | Some(value: T)
}

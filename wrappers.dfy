/** Optional values, standing in for Go's nil / non-nil pairs. */
module Wrappers {

  datatype Option<+T> = None | Some(value: T)
}

/** Optional values, used where the source returns a nil-able error or a value that may be absent. */
module Wrappers {

  datatype Option<+T> = None | Some(value: T)
}

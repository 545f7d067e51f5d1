/** Optional values, used wherever the Go code has a "value, ok" pair or a
    field that may be absent. */
module Wrappers {

  datatype Option<+T> = None | Some(value: T)
}

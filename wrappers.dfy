/** Optional values: a Go `nil` / "not found" is `None`. */
module Wrappers {

  datatype Option<+T> = None | Some(value: T)
}

/** Optional values: a pointer position, a loaded image or a parse result that may be absent. */
module Wrappers {
  datatype Option<+T> = None | Some(value: T)
}

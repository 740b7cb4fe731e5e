/** Optional values: a JSON member that may be absent, a header that may be missing. */
module Wrappers {
  datatype Option<+T> = None | Some(value: T)
}

/** Optional values: a header that may be absent, a setting that may be unset. */
module Wrappers {

  datatype Option<+T> = None | Some(value: T)
}

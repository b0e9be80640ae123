/** Optional values, used wherever the modelled code has a possibly nil pointer. */
module Wrappers {
  datatype Option<+T> = None | Some(value: T)
}

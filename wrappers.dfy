/** Optional values, for the keyword arguments the generator leaves unset. */
module Wrappers {
  datatype Option<+T> = None | Some(value: T)
}

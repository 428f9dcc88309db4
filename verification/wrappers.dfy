/** Optional values, shared by the window models. */
module Wrappers {

  datatype Option<+T> = None | Some(value: T)
}

/** Optional values, for the searches that may find nothing and the scale requests that are ignored. */
module Wrappers {

  datatype Option<+T> = None | Some(value: T)
}

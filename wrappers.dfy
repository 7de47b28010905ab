/** Optional values: an absent tool argument, or the result of a lookup. */
module Wrappers {

  datatype Option<+T> = None | Some(value: T)
}

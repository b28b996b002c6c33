/** Optional values, used for the draft's fields that are not chosen yet. */
module Wrappers {

  datatype Option<+T> = None | Some(value: T)
}

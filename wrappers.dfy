/** Optional values: the outcome of an SDK call that either yields a value or fails. */
module Wrappers {

  datatype Option<+T> = None | Some(value: T)
}

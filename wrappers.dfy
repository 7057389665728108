/** Optional values, for storage that may hold nothing and theme names that select nothing. */
module Wrappers {

  datatype Option<+T> = None | Some(value: T)
}

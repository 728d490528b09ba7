/** Optional values: a DOM query that may find nothing, a list index that may be absent. */
module Wrappers {

  datatype Option<+T> = None | Some(value: T)
}

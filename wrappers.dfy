/** Optional values, used where the source returns None or an item. */
module Wrappers {

  datatype Option<+T> = None | Some(value: T)
}

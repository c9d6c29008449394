/** Optional values: the page's `number | null` state. */
module Wrappers {
  datatype Option<+T> = None | Some(value: T)
}

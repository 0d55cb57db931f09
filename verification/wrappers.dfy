/** Optional values: a JSON `null` field, or a variable that was never bound. */
module Wrappers {
  datatype Option<+T> = None | Some(value: T)
}

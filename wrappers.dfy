/** Optional values: a JavaScript variable that may still be `undefined`, a DOM lookup that may find nothing. */
module Wrappers {
  datatype Option<+T> = None | Some(value: T)
}

/** Optional values: JavaScript's `null` / `undefined` where the source stores one in a field. */
module Wrappers {

  datatype Option<+T> = None | Some(value: T)
}

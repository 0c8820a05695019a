/** Optional values, standing for JavaScript's `undefined` / `null` where a value may be missing. */
module Wrappers {

  datatype Option<+T> = None | Some(value: T)
}

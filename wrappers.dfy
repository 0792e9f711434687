/** Optional values, standing in for TypeScript's `undefined` and for optional props. */
module Wrappers {

  datatype Option<+T> = None | Some(value: T)
}

/** Optional values: a JavaScript `undefined` collection or lookup result. */
module Wrappers {

  datatype Option<+T> = None | Some(value: T)
}

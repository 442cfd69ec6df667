/** Optional values: `undefined`/`null` in the listing front end become `None`. */
module Wrappers {

  datatype Option<+T> = None | Some(value: T)
}

/** Optional values: a request parameter or a JSON key that may be missing. */
module Wrappers {

  datatype Option<+T> = None | Some(value: T)
}

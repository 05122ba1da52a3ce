/** Optional values, used for nullable host objects and failed parses. */
module Wrappers {

  datatype Option<+T> = None | Some(value: T)
}

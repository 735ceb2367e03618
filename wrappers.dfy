/** Optional values: a tag that may be absent, a match that may fail. */
module Wrappers {

  datatype Option<+T> = None | Some(value: T)

}

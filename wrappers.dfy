/** Optional values, used for nullable model fields and lookups that may miss. */
module Wrappers {

  datatype Option<+T> = None | Some(value: T)
}

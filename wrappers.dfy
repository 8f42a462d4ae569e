/** Optional values: an absent field of a feed record, or a feed that could not be read. */
module Wrappers {

  datatype Option<+T> = None | Some(value: T)
}

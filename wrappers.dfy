/** Optional values, shared by the offer catalogue and the feature decoder. */
module Wrappers {

  datatype Option<T> = None | Some(value: T)
}

/** Optional values: the "absent" case of a lookup, of a network result or of an element query. */
module Wrappers {

  datatype Option<+T> = None | Some(value: T)
}

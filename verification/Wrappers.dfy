/** Optional values: Go's second result (found, ok) and nilable pointers. */
module Wrappers {

  datatype Maybe<T> = None | Some(value: T)
}

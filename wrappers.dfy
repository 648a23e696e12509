/** Optional values: a Kotlin nullable result, or a computation that threw. */
module Wrappers {

  datatype Option<+T> = None | Some(value: T)
}

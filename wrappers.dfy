/** Optional values: a JSON field that may be absent, a Kotlin value that may be null. */
module Wrappers {
  datatype Option<+T> = None | Some(value: T)
}

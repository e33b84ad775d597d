/** Optional values: a Go field or global that may be nil (`*time.Time`,
    `*uint`, the global configuration) is modelled as an Option. */
module Wrappers {
  datatype Option<+T> = None | Some(value: T)
}

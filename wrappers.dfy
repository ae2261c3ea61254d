/** Optional values: stands for a JavaScript reference that may be null or
    a property that may be undefined. */
module Wrappers {

  datatype Option<+T> = None | Some(value: T)
}

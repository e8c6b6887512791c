/** Optional values, used for every field the source leaves null or undefined. */
module Wrappers {

  datatype Option<+T> = None | Some(value: T)
}

/** Optional values, used for the `error` results of Go functions (None stands for nil). */
module Wrappers {

  datatype Option<+T> = None | Some(value: T)
}

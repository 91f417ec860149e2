/** Optional values, standing in for the `null`/`undefined` results of the source. */
module Wrappers {

  datatype Option<+T> = None | Some(value: T)

}

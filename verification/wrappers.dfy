/** Optional values: Python's `None` for a missing parent path. */
module Wrappers {

  datatype Option<+T> = None | Some(value: T)

}

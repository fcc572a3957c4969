/** Optional values: `None` stands for a value that is absent. */
module Wrappers {

  datatype Option<+T> = None | Some(value: T)
}

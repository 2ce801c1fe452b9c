/** Optional values: `None` stands for a field or argument that is `undefined`. */
module Wrappers {

  datatype Option<+T> = None | Some(value: T)
}

/** Optional values: a field of the fundamentals record that the data
    provider may leave out (Python's `None`). */
module Wrappers {

  datatype Option<+T> = None | Some(value: T)
}

/** Python's `None`-or-value, used for optional results. */
module Wrappers {

  datatype Option<+T> = None | Some(value: T)
}

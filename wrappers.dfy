/** The usual optional value: `None` when something is absent. */
module Wrappers {
  datatype Option<+T> = None | Some(value: T)
}

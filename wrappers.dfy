/** The optional value used for Python's `Optional[...]`. */
module Wrappers {
  datatype Option<+T> = None | Some(value: T)
}

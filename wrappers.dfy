/** The usual optional value, for Python's "a value or nothing". */
module Wrappers {
  datatype Option<+T> = None | Some(value: T)
}

/** The value-or-nothing type the other modules use for Python's None. */
module Wrappers {
  datatype Option<+T> = None | Some(value: T)
}

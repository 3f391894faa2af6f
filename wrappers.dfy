/** The optional value used where the program reads a name that may be absent. */
module Wrappers {
  datatype Option<+T> = None | Some(value: T)
}

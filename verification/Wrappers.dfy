/** The optional value used wherever the program has a nil pointer or a row that may be absent. */
module Wrappers {
  datatype Option<+T> = None | Some(value: T)
}

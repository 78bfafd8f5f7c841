/** The optional value used wherever the program has a `None`. */
module Wrappers {
  datatype Option<+T> = None | Some(value: T)
}

/** The optional-value datatype used for inputs that may run out. */
module Wrappers {
  datatype Option<+T> = None | Some(value: T)
}

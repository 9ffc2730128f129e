/** The optional-value datatype used for "zero or one event". */
module Wrappers {
  datatype Option<+T> = None | Some(value: T)
}

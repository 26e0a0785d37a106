/** An optional value, shared by all parts of the model. */
module Wrappers {
  datatype Option<+T> = None | Some(value: T)
}

/** The Some/None datatype used for optional values throughout the model. */
module Wrappers {
  datatype Option<+T> = None | Some(value: T)
}

/** The optional value used wherever the engine tests a property for `undefined`. */
module Wrappers {
  datatype Option<+T> = None | Some(value: T)
}

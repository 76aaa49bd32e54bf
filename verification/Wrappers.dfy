/** The conventional optional value, used where the controllers use a nil pointer or a missing object. */
module Wrappers {
  datatype Option<+T> = None | Some(value: T)
}

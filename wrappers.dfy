/** Option, used wherever the firmware returns a nullable pointer. */
module Wrappers {

  datatype Option<+T> = None | Some(value: T)
}

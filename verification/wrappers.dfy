/** Option: a value that may be absent (stands in for a nullable pointer). */
module Wrappers {
  datatype Option<+T> = None | Some(value: T)
}

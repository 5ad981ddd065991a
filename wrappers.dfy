/** Option type shared by the model: a JSON value that may be absent or null. */
module Wrappers {
  datatype Option<+T> = None | Some(value: T)
}

/** The optional values shared by every module: JavaScript's undefined and null. */
module Wrappers {
  datatype Option<+T> = None | Some(value: T)
}

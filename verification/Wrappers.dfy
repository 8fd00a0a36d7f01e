/** The optional values shared by every module: a nullable column, or a value the source leaves zero. */
module Wrappers {
  datatype Option<+T> = None | Some(value: T)
}

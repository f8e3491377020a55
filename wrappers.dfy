/** The optional value used for fields that JavaScript leaves `null`. */
module Wrappers {
  datatype Option<+T> = None | Some(value: T)
}

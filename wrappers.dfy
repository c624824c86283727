/** The optional value used for Go's nil pointers. */
module Wrappers {

  datatype Option<+T> = None | Some(value: T)
}

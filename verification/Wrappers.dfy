/** Failure-free optional values, used for Go's nil pointers and absent keys. */
module Wrappers {

  datatype Option<+T> = None | Some(value: T)
}

/** The optional value used wherever the Go code holds a pointer or interface that may be nil. */
module Wrappers {

  datatype Option<+T> = None | Some(value: T)
}

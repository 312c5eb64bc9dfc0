/** The optional value used throughout the model for Go's nil results and JavaScript's missing entries. */
module Wrappers {

  datatype Option<+T> = None | Some(value: T)
}

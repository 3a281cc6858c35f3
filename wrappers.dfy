/** The optional value used wherever the Swift code holds a `T?`. */
module Wrappers {

  datatype Option<+T> = None | Some(value: T)
}

/** The optional-value datatype used for values that JavaScript leaves `undefined`. */
module Wrappers {

  datatype Option<+T> = None | Some(value: T)
}

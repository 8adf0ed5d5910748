/** The Some/None datatype used for values that JavaScript leaves `undefined` or `null`. */
module Wrappers {

  datatype Option<+T> = None | Some(value: T)
}

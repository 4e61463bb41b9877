/** The optional value returned by `Vec::pop`. */
module Wrappers {

  datatype Option<+T> = None | Some(value: T)
}

/** The usual Some/None datatype, used for the partial inverse of the type namer. */
module Wrappers {

  datatype Option<+T> = None | Some(value: T)
}

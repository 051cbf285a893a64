/** The usual optional value, for results a caller may not get. */
module Wrappers {

  datatype Option<+T> = None | Some(value: T)
}

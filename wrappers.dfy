/** The optional value returned by the priority selector's validator. */
module Wrappers {
  datatype Option<+T> = None | Some(value: T)
}

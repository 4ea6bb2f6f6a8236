/** The conventional Some/None datatype, used for the partial inverses. */
module Wrappers {
  datatype Option<+T> = None | Some(value: T)
}

/** The Some/None datatype used for the nullable values of the modelled program. */
module Wrappers {
  datatype Option<+T> = None | Some(value: T)
}

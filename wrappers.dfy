/** The optional value used where the modelled code reports "no value". */
module Wrappers {

  datatype Option<+T> = None | Some(value: T)
}

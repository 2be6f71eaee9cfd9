/** The Some/None datatype used in place of a null pointer or an absent value. */
module Wrappers {

  datatype Option<+T> = None | Some(value: T)
}

/** The optional value used where the source leaves an out-parameter untouched or finds nothing. */
module Wrappers {

  datatype Option<+T> = None | Some(value: T)
}

/** The optional value used for manifest fields and caught exceptions. */
module Wrappers {

  datatype Option<+T> = None | Some(value: T)
}

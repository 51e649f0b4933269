/** The optional value used for results that may carry a reason or an error message. */
module Wrappers {
  datatype Option<+T> = None | Some(value: T)
}

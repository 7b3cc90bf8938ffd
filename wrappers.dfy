/** The optional value used for Go's nil-able results (an error that may be nil). */
module Wrappers {

  datatype Option<+T> = None | Some(value: T)
}

/** The optional value used for Go's nil-able *int fields and for failing conversions. */
module Wrappers {

  datatype Option<+T> = None | Some(value: T)
}

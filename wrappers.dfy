/** A value that may be absent: a path parameter the router did not supply,
    an error that a Go call returned as nil. */
module Wrappers {
  datatype Option<+T> = None | Some(value: T)
}

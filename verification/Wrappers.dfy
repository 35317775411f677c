/** A value that may be absent: a missing key, a refused text, a call without the optional argument. */
module Wrappers {

  datatype Option<+T> = None | Some(value: T)
}

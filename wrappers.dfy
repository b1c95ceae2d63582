/** A value that may be absent, as JavaScript's `null`/`undefined` arguments are. */
module Wrappers {

  datatype Option<+T> = None | Some(value: T)

}

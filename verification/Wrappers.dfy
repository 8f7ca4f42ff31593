/** The one wrapper type shared by every module: a value that may be absent. */
module Wrappers {

  datatype Option<+T> = None | Some(value: T)
}

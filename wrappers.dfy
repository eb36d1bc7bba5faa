/** The optional value used wherever the extension works with `T | undefined`. */
module Wrappers {

  datatype Option<+T> = None | Some(value: T)
}

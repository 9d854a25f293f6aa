/** The optional value used for parse results and the error dialog. */
module Wrappers {
  datatype Option<T> = None | Some(value: T)
}

/** The optional value used for "argument omitted" and for operations that can fail. */
module Wrappers {

  datatype Option<+T> = None | Some(value: T)
}

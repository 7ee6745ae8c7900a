/** The optional value used for every field the source leaves `undefined`. */
module Wrappers {

  datatype Option<+T> = None | Some(value: T)
}

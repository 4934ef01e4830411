/** The optional value used for the C code's nullable results (NULL handlers, NULL strings). */
module Wrappers {

  datatype Option<+T> = None | Some(value: T)

}

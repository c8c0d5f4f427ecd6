/** The optional value used for absent mappers and absent terminal errors. */
module Wrappers {
  datatype Option<+T> = None | Some(value: T)
}

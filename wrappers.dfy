/** The optional value used by both modules of the model. */
module Wrappers {

  datatype Option<T> = None | Some(value: T)
}

/** The optional value used for "may be absent" inputs of the model. */
module Wrappers {

  datatype Option<+T> = None | Some(value: T)
}

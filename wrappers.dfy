/** The optional value used for "no such row" and "the model raised". */
module Wrappers {

  datatype Option<+T> = None | Some(value: T)
}

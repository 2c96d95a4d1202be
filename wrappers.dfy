/** The optional value used throughout the model: a key that may be missing,
    a read that may fail, a slot that may be empty. */
module Wrappers {

  datatype Option<T> = None | Some(value: T)
}

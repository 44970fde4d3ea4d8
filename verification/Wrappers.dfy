/** A result that may be missing: a null pointer, an owner that is not there. */
module Wrappers {

  datatype Option<T> = None | Some(value: T)
}

/** The optional value, Swift's `T?`. */
module Wrappers {

  datatype Option<T> = None | Some(value: T)
}

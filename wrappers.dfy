/** The optional value the scripts express with a null reference. */
module Wrappers {
  datatype Option<T> = None | Some(value: T)
}

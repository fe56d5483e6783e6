/** The optional-value type used for outcomes that may end in a Python exception. */
module Wrappers {

  datatype Option<T> = None | Some(value: T)
}

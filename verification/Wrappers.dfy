/** The optional value used for Python's `None`, SQL's NULL and missing map entries. */
module Wrappers {
  datatype Option<+T> = None | Some(value: T)
}

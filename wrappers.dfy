/** The optional value used throughout the model for a pointer that may be NULL,
    a table slot that may be absent, or a parse that may fail. */
module Wrappers {
  datatype Option<+T> = None | Some(value: T)
}

/** The optional value shared by the other modules. */
module Wrappers {
  /** A value that may be missing; `None` stands for an exception the source lets propagate. */
  datatype Option<+T> = None | Some(value: T)
}

/** The optional-value datatype shared by the modules of this project. */
module Wrappers {

  /** A value that may be missing: JavaScript's `undefined` / absent property, or a failed match. */
  datatype Option<+T> = None | Some(value: T)
}

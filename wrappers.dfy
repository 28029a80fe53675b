/** The optional-value datatype shared by the models. */
module Wrappers {

  /** A value that may be missing: `None` stands for JavaScript's `null` or `undefined`. */
  datatype Option<+T> = None | Some(value: T)
}

/** The optional-value type shared by every module of the model. */
module Wrappers {

  /** `None` stands for JavaScript's `undefined` wherever a value may be missing. */
  datatype Option<+T> = None | Some(value: T)
}

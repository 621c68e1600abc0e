/** The optional-value type shared by the other modules. */
module Wrappers {
  /** `None` stands for a call into an external library that raised instead of returning. */
  datatype Option<+T> = None | Some(value: T)
}

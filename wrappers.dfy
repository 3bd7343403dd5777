/** The optional-value datatype used across the model (Python's `None` or a value). */
module Wrappers {

  datatype Option<+T> = None | Some(value: T)
}

/** The one optional-value type every module of the model shares. */
module Wrappers {
  datatype Option<+T> = None | Some(value: T)
}

/** The optional-value type used for the handles that may be absent (`None` in the source). */
module Wrappers {
  datatype Option<+T> = None | Some(value: T)
}

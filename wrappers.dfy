/** The absent-or-present result used where the source returns an empty string for "nothing". */
module Wrappers {
  datatype Option<+T> = None | Some(value: T)
}

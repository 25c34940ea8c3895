/** The optional value used for "not found" answers (a failed `find`, no point near the cursor). */
module Wrappers {
  datatype Option<+T> = None | Some(value: T)
}

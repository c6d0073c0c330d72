/** Absent-or-present values: `null`/`undefined` versus a value in the source. */
module Wrappers {

  datatype Option<+T> = None | Some(value: T)
}

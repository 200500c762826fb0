/** Small failure-compatible helpers shared by the other modules. */
module Wrappers {

  /** An optional value: Go's nil-or-something results and nullable pointers. */
  datatype Option<+T> = None | Some(value: T)
}

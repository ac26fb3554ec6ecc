/** Small failure-compatible helper types shared by the other modules. */
module Wrappers {

  /** A value that may be absent; models Python's `None` for an optional result. */
  datatype Option<+T> = None | Some(value: T)
}

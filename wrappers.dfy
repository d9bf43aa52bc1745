/** A value that may be absent: `None` stands for JavaScript's `undefined` or `null`. */
module Wrappers {
  datatype Option<+T> = None | Some(value: T)
}

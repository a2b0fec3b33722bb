/** The Option datatype used for values a query or a conversion may not produce. */
module Wrappers {

  /** `None` stands for Python's `None` (or a value that was never produced). */
  datatype Option<+T> = None | Some(value: T)
}

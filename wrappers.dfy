/** The optional value used wherever the audit reads a dictionary key that may be absent. */
module Wrappers {

  /** `None` stands for Python's `None`, returned by `dict.get` on a missing key. */
  datatype Option<+T> = None | Some(value: T)
}

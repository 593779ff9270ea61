/** The optional-value datatype shared by the other modules: Python's `None`
    default for an omitted argument, and `None` as an axis specification. */
module Wrappers {

  datatype Option<+T> = None | Some(value: T)
}

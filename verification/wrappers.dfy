/** The optional value used wherever the explorer shows the sentinel
    'undefined' instead of a number. */
module Wrappers {

  datatype Option<+T> = None | Some(value: T)
}

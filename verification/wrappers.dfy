/** The optional value used for the page's nullable references. */
module Wrappers {

  datatype Option<+T> = None | Some(value: T)
}

/** The optional value returned by a first-match search. */
module Wrappers {
  datatype Option<+T> = None | Some(value: T)
}

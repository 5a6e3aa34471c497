/** The optional value the session keeps for its news article (Python's `None` or a string). */
module Wrappers {
  datatype Option<+T> = None | Some(value: T)
}

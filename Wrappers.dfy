/** The optional value the crawler passes around where Python returns None. */
module Wrappers {

  datatype Option<+T> = None | Some(value: T)
}

/** The optional value used where the rule table leaves an entry out. */
module Wrappers {

  datatype Option<+T> = None | Some(value: T)
}

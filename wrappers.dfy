/** The optional value used for titles, initial paths and file selections. */
module Wrappers {

  datatype Option<+T> = None | Some(value: T)
}

/** The optional value the page component keeps where the source stores `null`. */
module Wrappers {

  datatype Option<+T> = None | Some(value: T)
}

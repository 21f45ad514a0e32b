/** The optional value used wherever the page reads something that may be
    missing: a DOM attribute (`getAttribute` returns null) or a stored
    preference (`localStorage.getItem` returns null). */
module Wrappers {

  datatype Option<+T> = None | Some(value: T)
}

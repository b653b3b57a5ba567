/** The conventional optional value: a stored record that could not be loaded,
    a request field that was not sent. */
module Wrappers {

  datatype Option<+T> = None | Some(value: T)
}

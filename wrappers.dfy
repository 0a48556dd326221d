/** The optional values the component keeps in React state: a value that is
    not there yet is `null` in the component, `None` here. */
module Wrappers {

  datatype Option<+T> = None | Some(value: T)
}

/** The optional-value wrapper used for the optional `select` map. */
module Wrappers {

  datatype Option<+T> = None | Some(value: T)
}

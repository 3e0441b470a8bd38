/** The optional value used for absent request bodies and failed lookups. */
module Wrappers {

  datatype Option<+T> = None | Some(value: T)
}

/** The Option type used for the nullable and "not set" values of the model. */
module Wrappers {

  datatype Option<+T> = None | Some(value: T)
}

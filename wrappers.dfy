/** The optional-value datatype used for the results of the payload decoders. */
module Wrappers {

  datatype Option<+T> = None | Some(value: T)
}

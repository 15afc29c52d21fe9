/** The optional-value datatype used for pointer slots a signature may lack. */
module Wrappers {

  datatype Option<+T> = None | Some(value: T)
}

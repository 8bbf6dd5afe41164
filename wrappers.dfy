/** The optional value used for absent record fields and for a run that ends without output. */
module Wrappers {
  datatype Option<+T> = None | Some(value: T)
}

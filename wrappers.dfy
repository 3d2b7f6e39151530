/** The optional value used for absent tiers and omitted arguments. */
module Wrappers {

  datatype Option<+T> = None | Some(value: T)

}

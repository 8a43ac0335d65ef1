/** The optional-value datatype used for the loosely typed per-user data bag
    (a missing key reads as None, as `dict.get` does). */
module Wrappers {

  datatype Option<+T> = None | Some(value: T)
}

/** The optional value used wherever the source has `undefined`, `NaN` or a
    conditionally rendered element. */
module Wrappers {

  datatype Option<+T> = None | Some(value: T)
}

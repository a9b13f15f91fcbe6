/** The optional value used for undefined results (an empty mean, a division by zero)
    and for "no constraint" in a filter. */
module Wrappers {
  datatype Option<+T> = None | Some(value: T)
}

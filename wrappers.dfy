/** The optional value used for absent stored blobs, absent response fields
    and evaluations that throw. */
module Wrappers {
  datatype Option<+T> = None | Some(value: T)
}

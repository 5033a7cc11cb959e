/** The optional value used wherever the Go code has a nil-able pointer, a nil
    error or an absent JSON field. */
module Wrappers {

  datatype Option<+T> = None | Some(value: T)
}

/** Python's None / Java's null beside a present value. */
module Wrappers {

  datatype Option<+T> = None | Some(value: T)
}

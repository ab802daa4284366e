/** An optional value: stands for a Java reference that may be null, and for
    a call that throws instead of returning. */
module Wrappers {

  datatype Option<+T> = None | Some(value: T)
}

/** An optional value: Python's `None` on one side, a present value on the other.
    Also used for a dictionary key that may be absent. */
module Wrappers {

  datatype Option<+T> = None | Some(value: T)

}

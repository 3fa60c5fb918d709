/** The Option datatype used for the session fields and answer slots that may be unset
    (Python's `None`). */
module Wrappers {

  datatype Option<+T> = None | Some(value: T)

}

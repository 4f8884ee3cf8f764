/** The Option type used wherever the source yields `undefined`, a "no data"
    outcome, or a callback that may not be called. */
module Wrappers {

  datatype Option<+T> = None | Some(value: T)
}

/** The Some/None datatype that the generator's `Next` returns. */
module Wrappers {

  datatype Option<+T> = None | Some(value: T)
}

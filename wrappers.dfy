/** The optional value returned where the scheduler returns a TCB pointer or NULL. */
module Wrappers {
  datatype Option<+T> = None | Some(value: T)
}

/** The optional value used for C++ function-local `static` variables that
    have not yet been initialised. */
module Wrappers {

  datatype Option<+T> = None | Some(value: T)
}

/** `Option` is a C# reference that may be null; `Outcome` is a call that
    returns or throws. */
module Wrappers {

  datatype Option<+T> = None | Some(value: T)

  datatype Outcome<+E> = Pass | Fail(error: E)
}

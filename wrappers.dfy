/** The optional value used for `gameResult: ... | null` and for a callback that may not fire. */
module Wrappers {
  datatype Option<T> = None | Some(value: T)
}

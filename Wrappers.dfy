/** The optional value used for the source's `undefined`/`null` options and provider content. */
module Wrappers {
  datatype Option<+T> = None | Some(value: T)
}

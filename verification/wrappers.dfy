/** The optional value used wherever the client holds a reference that may be
    missing: JavaScript's `null` and `undefined` are both `None` here, since
    the client only ever tests such a reference for truthiness. */
module Wrappers {

  datatype Option<+T> = None | Some(value: T)
}

/** The optional values the store works with: a JavaScript argument that may be
    missing (`undefined`/`null`) and an expiry that may be `null`. */
module Wrappers {

  datatype Option<+T> = None | Some(value: T)
}

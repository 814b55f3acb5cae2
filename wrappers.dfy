/** The optional value used for the document's nullable and optional fields. */
module Wrappers {

  /** `None` stands for TypeScript's `undefined` or `null`. */
  datatype Option<+T> = None | Some(value: T)
}

/** Swift's optional values (`T?`), as used by the raw-value initialiser and the table helpers. */
module Wrappers {
  datatype Option<+T> = None | Some(value: T)
}

/** The optional-value datatype used for parsing the string values of levels and selectors. */
module Wrappers {

  /** Either no value or exactly one value. */
  datatype Option<+T> = None | Some(value: T)
}

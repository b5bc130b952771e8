/** The optional value used for a form field that may be empty or unparseable. */
module Wrappers {

  /** `None` stands for a field whose text does not parse as a number. */
  datatype Option<+T> = None | Some(value: T)
}

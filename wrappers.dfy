/** Small shared helper types. */
module Wrappers {

  /** A value that may be absent (a missing lead, an optional e-mail address, no result yet). */
  datatype Option<+T> = None | Some(value: T)
}

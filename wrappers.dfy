/** The "absent value" results the screens use: `null`, or NaN from a failed parse. */
module Wrappers {
  datatype Option<+T> = None | Some(value: T)
}

/** The optional value used wherever the scanner's JavaScript returns `null`,
    `undefined` or a value. */
module Wrappers {

  datatype Option<+T> = None | Some(value: T)
}

/** The usual Some/None wrapper, used for Go's nil-able values and error returns. */
module Options {

  datatype Option<+T> = None | Some(value: T)
}

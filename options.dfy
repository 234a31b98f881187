/** Python's `None`-or-value, used wherever the engine returns or stores an optional value. */
module Options {

  datatype Option<+T> = None | Some(value: T)
}

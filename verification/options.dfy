/** An optional value: `undefined` (or an exception caught by the caller) is `None`. */
module Options {

  datatype Option<+T> = None | Some(value: T)
}

/** A JavaScript value that is either `undefined` or present. */
module Options {

  datatype Option<+T> = None | Some(value: T)
}

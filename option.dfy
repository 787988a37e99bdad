/** The optional value used wherever the source has `undefined` or `null`. */
module Optional {

  datatype Option<+T> = None | Some(value: T)
}

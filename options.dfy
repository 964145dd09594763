/** The optional value used wherever the source reads a field that may be null or undefined. */
module Options {

  datatype Option<+T> = None | Some(value: T)
}

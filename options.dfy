/** An optional value, shared by the scanner and the main loop. */
module Options {

  datatype Option<T> = None | Some(value: T)
}

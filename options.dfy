/** The optional value used for the parser's token slots and for statement results. */
module Options {

  datatype Option<+T> = None | Some(value: T)
}

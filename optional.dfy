/** The usual Some/None wrapper, used for a regex that may not match and a chart that may not be drawn. */
module Optional {

  datatype Option<+T> = None | Some(value: T)
}

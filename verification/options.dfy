/** The Some/None datatype used for Python's "None or a value" results. */
module Options {

  datatype Option<+T> = None | Some(value: T)

}

/** An optional value: the nil interface values and the ", ok" results of Go. */
module Options {
  datatype Option<T> = None | Some(value: T)
}

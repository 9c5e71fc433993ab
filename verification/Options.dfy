/** A value that may be missing: a null pointer, a refused request, a closed connection. */
module Options {

  datatype Option<+T> = None | Some(value: T)
}

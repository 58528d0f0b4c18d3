/** A value that may be absent: the code's nil pointers and missing rows. */
module Options {

  datatype Option<T> = None | Some(value: T)
}

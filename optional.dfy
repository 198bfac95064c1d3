/** A value that may be absent: a failed decode, an unsupported format. */
module Optional {

  datatype Option<T> = None | Some(value: T)
}

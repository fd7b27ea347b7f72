/** Java's nullable references, written out: None is null. */
module Optional {
  datatype Option<+T> = None | Some(value: T)
}

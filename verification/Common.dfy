/** Values shared by the other modules. */
module Common {

  /** A C pointer that may be NULL, or a result that may be missing. */
  datatype Option<+T> = None | Some(value: T)
}

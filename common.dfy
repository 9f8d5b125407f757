/** Small shared datatypes used by the rest of the model. */
module Common {

  /** A value that may be absent: a null pointer, a failed search, a failed parse. */
  datatype Option<+T> = None | Some(value: T)
}

/** Small value types shared by the rest of the model. */
module Types {

  /** An optional value: a keyword argument left at `None`, a prompt that never got an answer. */
  datatype Option<+T> = None | Some(value: T)
}

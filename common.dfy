/** Small shared datatypes. */
module Common {

  /** An optional value: `None` stands for the source's `undefined` / `null`. */
  datatype Option<+T> = None | Some(value: T)
}

/** The optional-value datatype shared by the other modules. */
module Options {

  /** `None` stands for JavaScript's `null`/`undefined`. */
  datatype Option<+T> = None | Some(value: T)
}

/** The optional-value datatype used throughout the model. */
module Options {

  /** `None` stands for a missing value (JavaScript `null`/`undefined` where a
      value is optional, or a failed lookup). */
  datatype Option<+T> = None | Some(value: T)
}

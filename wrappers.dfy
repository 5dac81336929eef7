/** The optional-value datatype used throughout the model. */
module Wrappers {

  /** `None` stands for a JavaScript value that carries no usable number:
      NaN, an Invalid Date, `undefined` or `null`, depending on the context. */
  datatype Option<+T> = None | Some(value: T)
}

/** The two shapes a partial step returns in this model. */
module Outcomes {

  /** `None` stands for a value that is not there (JavaScript's `undefined`). */
  datatype Option<+T> = None | Some(value: T)

  /** A step that yields a value or throws; `Err` carries the thrown error's `message`. */
  datatype Result<+T> = Ok(value: T) | Err(message: string)
}

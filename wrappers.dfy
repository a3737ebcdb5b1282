/** Values the source leaves `undefined`/`null`, and calls that either return or throw. */
module Wrappers {

  datatype Option<+T> = None | Some(value: T)

  /** The outcome of an async function: its promise resolves with a value or rejects with an error message. */
  datatype Result<+R> = Returned(value: R) | Threw(message: string)
}

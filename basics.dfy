/** Values the JavaScript code represents with `null` or with a thrown Error. */
module Basics {

  /** A slot or a reference that may be `null`. */
  datatype Option<T> = None | Some(value: T)

  /** A decoded value or the message of the Error the source throws. */
  datatype Result<T> = Success(value: T) | Failure(error: string)
}

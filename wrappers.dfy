/** Value wrappers shared by the widget gateway model. */
module Wrappers {

  /** A value that may be absent: JavaScript's `undefined`/`null`. */
  datatype Option<T> = None | Some(value: T)

  /** A handler either answers or throws an error with a message. */
  datatype Result<T> = Success(value: T) | Failure(error: string)
}

/** Small value wrappers shared by the model: Kotlin's nullable values and the
    app's `Resource` result type. */
module Wrappers {

  /** A Kotlin nullable value: `None` stands for `null`. */
  datatype Option<+T> = None | Some(value: T)

  /** The outcome a repository flow emits: a value, or the message of the
      exception it caught. */
  datatype Resource<+T> = Success(data: T) | Failure(message: Option<string>)
}

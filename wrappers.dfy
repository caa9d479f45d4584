/** Small value wrappers shared by every module of the model. */
module Wrappers {

  /** A value that may be absent: TypeScript's `T | null | undefined`. */
  datatype Option<+T> = None | Some(value: T)

  /** What awaiting a call produced: the value it resolved to, or the
      message of the error it was rejected with (`e.message`). */
  datatype Outcome<+T> = Returned(value: T) | Threw(message: string)

  /** The `{ value?, error? }` object that the server actions return. */
  datatype Reply<+T> = Reply(value: Option<T>, error: Option<string>)

  /** The `{ success?, error? }` object returned by the delete and send actions. */
  datatype Ack = Ack(success: bool, error: Option<string>)
}

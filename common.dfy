/** Small wrapper types shared by every module of the model. */
module Common {

  /** A value that may be missing: JavaScript's `null` (or an absent key). */
  datatype Option<+T> = None | Some(value: T)

  /** How a JavaScript call ends: it returns normally, or it throws. The model
      does not distinguish between kinds of exception, because no caller in the
      application does (every `catch` block ignores what it caught). */
  datatype Completion<+T> = Normal(value: T) | Throw
}

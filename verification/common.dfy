/** Values shared by the backend and the browser: the optional-value wrapper,
    the two message roles and a message as it travels as JSON. */
module Common {

  datatype Option<T> = None | Some(value: T)

  /** The `role` column only ever receives these two values. */
  datatype Role = User | Assistant

  /** A chat message as a JSON object. Rows read back from the table carry an
      `id` and a `timestamp`; the echo of the user's text in a chat reply
      carries neither; the browser's optimistic message carries a temporary
      `id` and no `timestamp`. */
  datatype Message = Message(id: Option<int>, role: Role, content: string, timestamp: Option<int>)
}

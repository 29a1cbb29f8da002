/** Small shared vocabulary of the chat client and its backend. */
module Common {

  /** A value that may be absent: JavaScript's `undefined`, Python's `None`. */
  datatype Option<+T> = None | Some(value: T)

  /** The author of a chat message, written "user" and "assistant" on the wire. */
  datatype Role = User | Assistant

  /** A point in time; the model only copies timestamps from one place to another. */
  type Timestamp = int
}

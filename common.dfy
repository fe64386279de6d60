/** Shared vocabulary of the three handlers: optional values and user identities. */
module Common {

  /** A value that may be absent: JavaScript's `null` (or a missing key) is `None`. */
  datatype Option<T> = None | Some(value: T)

  /** The identifier of an authenticated user, as the session resolver yields it. */
  type UserId = string
}

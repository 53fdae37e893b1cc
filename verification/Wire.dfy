/** The vocabulary every component shares: a message, a record, the size limits and the
    outcomes of one non-blocking `sendmsg`. */
module Wire {

  /** The most descriptors one control message can carry. */
  const MAX_FDS: nat := 253

  /** The largest payload a message may carry, and the size of every receive buffer. */
  const MAX_MESSAGE_SIZE: nat := 8192

  type Byte = bv8

  /** An open file description, named independently of any descriptor number. */
  type Description = nat

  /** A payload and the capabilities riding along with it. */
  datatype Message = Message(data: seq<Byte>, fds: seq<Description>)

  datatype Option<+T> = None | Some(value: T)

  /** What one `sendmsg` with `MSG_DONTWAIT` reports. */
  datatype Outcome = Sent | WouldBlock | Broken

  /** Does the message fit in one control message? */
  predicate Sendable(m: Message) {
    |m.fds| <= MAX_FDS
  }

  /** Is the payload within the limit `try_send` enforces? */
  predicate FitsBuffer(m: Message) {
    |m.data| <= MAX_MESSAGE_SIZE
  }
}

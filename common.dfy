/** Shapes shared by the player, the recognition client and the conversation:
    an optional value (a nullable reference or a value that may be absent),
    and the readyState of a browser WebSocket. */
module Common {

  datatype Option<T> = None | Some(value: T)

  /** WebSocket.readyState: CONNECTING, OPEN, CLOSING, CLOSED. */
  datatype ReadyState = Connecting | Open | Closing | Closed

  /** The close code both clients pass to WebSocket.close (normal closure). */
  const NormalClosure := 1000

  /** The readyState after the client calls close() on a socket in state `s`:
      a connecting or open socket starts its closing handshake, a closing or
      closed one is left as it is. */
  function AfterCloseCall(s: ReadyState): (t: ReadyState)
    ensures t != Connecting && t != Open
    ensures s == Closing || s == Closed ==> t == s
  {
    match s
    case Connecting => Closing
    case Open => Closing
    case Closing => Closing
    case Closed => Closed
  }
}

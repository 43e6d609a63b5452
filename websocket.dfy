/** The browser `WebSocket` ready states, shared by the voice clients and the
    relays. */
module WebSocket {
  /** `WebSocket.readyState`. */
  datatype ReadyState = Connecting | Open | Closing | Closed

  /** The state after `socket.close(...)`: a CONNECTING or OPEN socket starts
      the closing handshake, a closing or closed one is left alone. */
  function AfterClose(s: ReadyState): (r: ReadyState)
    ensures s == Connecting || s == Open <==> r == Closing && s != Closing
    ensures s == Closing || s == Closed ==> r == s
  {
    if s == Connecting || s == Open then Closing else s
  }
}

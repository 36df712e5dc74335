/**
 * The session gate: the server serves at most one WebSocket client. A connection that
 * arrives while a client is bound is closed at once; the binding is dropped when the
 * bound client disconnects.
 */
module Session {

  /** An opaque identity of a WebSocket (the QWebSocket pointer). */
  type SocketId = nat

  datatype Option<T> = None | Some(value: T)

  /** m_WebSocket: null, or the one bound client. */
  datatype Gate = Idle | Bound(socket: SocketId)

  /** The gate after a newConnection signal, and the socket closed by it, if any. */
  datatype Admission = Admission(gate: Gate, closed: Option<SocketId>)

  /**
   * on_WebSocketServer_newConnection: pending is the result of nextPendingConnection(),
   * which may be null. The pending socket is closed only when a client is bound and the
   * socket is not null; otherwise the pending value, even a null one, becomes the binding.
   */
  function Connect(g: Gate, pending: Option<SocketId>): (a: Admission)
    ensures a.closed.Some? <==> g.Bound? && pending.Some?
    ensures a.closed.Some? ==> a.closed == pending && a.gate == g
    ensures a.closed.None? ==> a.gate == if pending.Some? then Bound(pending.value) else Idle
  {
    if g.Bound? && pending.Some? then Admission(g, pending)
    else if pending.Some? then Admission(Bound(pending.value), None)
    else Admission(Idle, None)
  }

  /**
   * on_WebSocket_disconnected: sender is the signalling object cast to a QWebSocket,
   * null when the cast fails. Only the bound client's disconnect clears the binding.
   */
  function Disconnect(g: Gate, sender: Option<SocketId>): (g': Gate)
    ensures g' == Idle <==> g == Idle || (sender.Some? && g == Bound(sender.value))
    ensures g'.Bound? ==> g' == g
  {
    if sender.Some? && g == Bound(sender.value) then Idle else g
  }

  /** A second client arriving while the first is bound is closed and leaves the first bound. */
  lemma SecondClientRejected(first: SocketId, second: SocketId)
    ensures Connect(Idle, Some(first)) == Admission(Bound(first), None)
    ensures Connect(Bound(first), Some(second)) == Admission(Bound(first), Some(second))
  {
  }

  /** After the bound client leaves, the next client is accepted. */
  lemma ReconnectAfterDisconnect(first: SocketId, second: SocketId)
    ensures Connect(Disconnect(Bound(first), Some(first)), Some(second)).gate == Bound(second)
  {
  }

  /** A signal delivered to the gate. */
  datatype Event = NewConnection(pending: Option<SocketId>) | Disconnected(sender: Option<SocketId>)

  /** The gate after a series of signals, handled in order. */
  function Run(g: Gate, events: seq<Event>): (g': Gate)
    decreases |events|
  {
    if events == [] then g
    else
      var g' := match events[0]
        case NewConnection(p) => Connect(g, p).gate
        case Disconnected(s) => Disconnect(g, s);
      Run(g', events[1..])
  }

  /**
   * A bound client keeps the session through any number of other connections and other
   * sockets' disconnects; only its own disconnect (or a newConnection signal with no
   * pending socket) ends the binding.
   */
  lemma {:induction false} BoundClientKeepsSession(c: SocketId, events: seq<Event>)
    requires forall e <- events :: e != NewConnection(None) && e != Disconnected(Some(c))
    ensures Run(Bound(c), events) == Bound(c)
    decreases |events|
  {
    if events != [] {
      assert events[0] in events;
      assert forall e <- events[1..] :: e in events;
      BoundClientKeepsSession(c, events[1..]);
    }
  }
}

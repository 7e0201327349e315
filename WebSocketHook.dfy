/**
 * The WebSocket hook: a connection status, the last parsed message, a
 * reference to the current socket, a reconnect-attempt counter and a
 * reference to the reconnect timer. The browser's sockets and timers are
 * modelled as an event source: every socket ever created keeps its own
 * ready state, and its handlers stay attached after the hook has moved on
 * to another socket.
 */
module WebSocketHook {
  import opened Wrappers

  datatype Status = Connecting | Connected | Disconnected | Error

  /** `WebSocket.readyState`. */
  datatype ReadyState = CONNECTING | OPEN | CLOSING | CLOSED

  /** `reconnectAttempts` and `reconnectInterval` when the caller gives none. */
  const DefaultReconnectAttempts: nat := 5
  const DefaultReconnectInterval: nat := 5000

  function RefSet(r: Option<nat>): set<nat>
  {
    if r.Some? then {r.value} else {}
  }

  /** The hook's state; `T` is what `JSON.parse` yields. */
  class Hook<T> {
    const reconnectAttempts: nat
    const reconnectInterval: nat
    var status: Status
    var data: Option<T>
    /** Every socket created so far, by creation order, with its ready state. */
    var sockets: seq<ReadyState>
    /** `socketRef.current`: an index into `sockets`. */
    var current: Option<nat>
    /** `attemptRef.current`. */
    var attempts: nat
    /** `reconnectTimeoutRef.current`: the last timer scheduled, until `disconnect` clears it. */
    var timerRef: Option<nat>
    /** The timers scheduled and neither fired nor cleared. */
    var pending: set<nat>
    var nextTimer: nat
    /** The values handed to `onMessage`, in order. */
    var delivered: seq<T>
    /** The texts transmitted by `send`, in order. */
    var outbox: seq<string>

    ghost predicate Valid()
      reads this
    {
      (current.Some? ==> current.value < |sockets|)
      && attempts <= reconnectAttempts
      && pending <= RefSet(timerRef)
      && (timerRef.Some? ==> timerRef.value < nextTimer)
    }

    /** The current socket is open. */
    predicate IsOpen()
      reads this
    {
      current.Some? && current.value < |sockets| && sockets[current.value] == OPEN
    }

    constructor (reconnectAttempts: nat, reconnectInterval: nat)
      ensures Valid()
      ensures this.reconnectAttempts == reconnectAttempts && this.reconnectInterval == reconnectInterval
      ensures status == Disconnected && data == None && sockets == [] && current == None
      ensures attempts == 0 && timerRef == None && pending == {} && delivered == [] && outbox == []
    {
      this.reconnectAttempts := reconnectAttempts;
      this.reconnectInterval := reconnectInterval;
      status := Disconnected;
      data := None;
      sockets := [];
      current := None;
      attempts := 0;
      timerRef := None;
      pending := {};
      nextTimer := 0;
      delivered := [];
      outbox := [];
    }

    /**
     * `connect`: nothing when the current socket is open; otherwise a new
     * socket becomes current and the status is `connecting`. When the
     * socket constructor throws (`urlAccepted` false) the status is `error`
     * and the reference is left as it was.
     */
    method Connect(urlAccepted: bool)
      requires Valid()
      modifies this
      ensures Valid()
      ensures old(IsOpen()) ==> unchanged(this)
      ensures !old(IsOpen()) && urlAccepted ==>
        sockets == old(sockets) + [CONNECTING] && current == Some(|old(sockets)|) && status == Connecting
      ensures !old(IsOpen()) && !urlAccepted ==>
        sockets == old(sockets) && current == old(current) && status == Error
      ensures attempts == old(attempts) && timerRef == old(timerRef) && pending == old(pending)
      ensures nextTimer == old(nextTimer) && data == old(data)
      ensures delivered == old(delivered) && outbox == old(outbox)
    {
      if IsOpen() {
        return;
      }
      if urlAccepted {
        current := Some(|sockets|);
        sockets := sockets + [CONNECTING];
        status := Connecting;
      } else {
        status := Error;
      }
    }

    /** Mounting the hook connects when `autoConnect` is set. */
    method Mount(autoConnect: bool, urlAccepted: bool)
      requires Valid()
      modifies this
      ensures Valid()
      ensures !autoConnect || old(IsOpen()) ==> unchanged(this)
      ensures autoConnect && !old(IsOpen()) && urlAccepted ==>
        sockets == old(sockets) + [CONNECTING] && current == Some(|old(sockets)|) && status == Connecting
      ensures autoConnect && !old(IsOpen()) && !urlAccepted ==>
        sockets == old(sockets) && current == old(current) && status == Error
      ensures attempts == old(attempts) && timerRef == old(timerRef) && pending == old(pending)
      ensures nextTimer == old(nextTimer) && data == old(data)
      ensures delivered == old(delivered) && outbox == old(outbox)
    {
      if autoConnect {
        Connect(urlAccepted);
      }
    }

    /** Socket `id` opens: `connected`, and the attempt counter starts over. */
    method OnOpen(id: nat)
      requires Valid() && id < |sockets| && sockets[id] == CONNECTING
      modifies this
      ensures Valid()
      ensures sockets == old(sockets)[id := OPEN]
      ensures status == Connected && attempts == 0
      ensures current == old(current) && timerRef == old(timerRef) && pending == old(pending)
      ensures nextTimer == old(nextTimer) && data == old(data)
      ensures delivered == old(delivered) && outbox == old(outbox)
    {
      sockets := sockets[id := OPEN];
      status := Connected;
      attempts := 0;
    }

    /**
     * Socket `id` closes: `disconnected`; after an unclean close with
     * attempts left, one more attempt is counted, the pending timer (if
     * any) is cleared and a new one is scheduled.
     */
    method OnClose(id: nat, wasClean: bool)
      requires Valid() && id < |sockets| && sockets[id] != CLOSED
      modifies this
      ensures Valid()
      ensures sockets == old(sockets)[id := CLOSED] && status == Disconnected
      ensures current == old(current) && data == old(data)
      ensures delivered == old(delivered) && outbox == old(outbox)
      ensures if !wasClean && old(attempts) < reconnectAttempts then
          attempts == old(attempts) + 1 && timerRef == Some(old(nextTimer))
          && pending == {old(nextTimer)} && nextTimer == old(nextTimer) + 1
        else
          attempts == old(attempts) && timerRef == old(timerRef)
          && pending == old(pending) && nextTimer == old(nextTimer)
    {
      sockets := sockets[id := CLOSED];
      status := Disconnected;
      if !wasClean && attempts < reconnectAttempts {
        attempts := attempts + 1;
        ScheduleReconnect();
      }
    }

    /** Clear the pending reconnect timer, if any, and schedule a new one. */
    method ScheduleReconnect()
      requires Valid()
      modifies this
      ensures Valid()
      ensures timerRef == Some(old(nextTimer)) && pending == {old(nextTimer)} && nextTimer == old(nextTimer) + 1
      ensures status == old(status) && data == old(data) && sockets == old(sockets) && current == old(current)
      ensures attempts == old(attempts) && delivered == old(delivered) && outbox == old(outbox)
    {
      if timerRef.Some? {
        pending := pending - {timerRef.value};
      }
      timerRef := Some(nextTimer);
      pending := pending + {nextTimer};
      nextTimer := nextTimer + 1;
    }

    /**
     * A message on socket `id`: `parsed` is what `JSON.parse` made of it,
     * `None` when it threw. Only a parsed message is stored and handed on.
     */
    method OnMessage(id: nat, parsed: Option<T>)
      requires Valid() && id < |sockets|
      modifies this
      ensures Valid()
      ensures parsed.None? ==> unchanged(this)
      ensures parsed.Some? ==> data == parsed && delivered == old(delivered) + [parsed.value]
      ensures status == old(status) && sockets == old(sockets) && current == old(current)
      ensures attempts == old(attempts) && timerRef == old(timerRef) && pending == old(pending)
      ensures nextTimer == old(nextTimer) && outbox == old(outbox)
    {
      if parsed.Some? {
        data := parsed;
        delivered := delivered + [parsed.value];
      }
    }

    /** An error on socket `id`: status `error`, nothing else. */
    method OnError(id: nat)
      requires Valid() && id < |sockets|
      modifies this
      ensures Valid()
      ensures status == Error
      ensures data == old(data) && sockets == old(sockets) && current == old(current)
      ensures attempts == old(attempts) && timerRef == old(timerRef) && pending == old(pending)
      ensures nextTimer == old(nextTimer) && delivered == old(delivered) && outbox == old(outbox)
    {
      status := Error;
    }

    /** A pending reconnect timer fires: it is spent (the reference keeps it) and `connect` runs. */
    method OnTimer(t: nat, urlAccepted: bool)
      requires Valid() && t in pending
      modifies this
      ensures Valid()
      ensures pending == {} && timerRef == old(timerRef) && attempts == old(attempts)
      ensures old(IsOpen()) ==> sockets == old(sockets) && current == old(current) && status == old(status)
      ensures !old(IsOpen()) && urlAccepted ==>
        sockets == old(sockets) + [CONNECTING] && current == Some(|old(sockets)|) && status == Connecting
      ensures !old(IsOpen()) && !urlAccepted ==>
        sockets == old(sockets) && current == old(current) && status == Error
      ensures nextTimer == old(nextTimer) && data == old(data)
      ensures delivered == old(delivered) && outbox == old(outbox)
    {
      pending := pending - {t};
      Connect(urlAccepted);
    }

    /**
     * `disconnect`: close the current socket and drop the reference, clear
     * the pending timer and the reference to it, reset the attempt counter
     * and report `disconnected`.
     */
    method Disconnect()
      requires Valid()
      modifies this
      ensures Valid()
      ensures current == None && timerRef == None && pending == {} && attempts == 0 && status == Disconnected
      ensures match old(current)
        case None => sockets == old(sockets)
        case Some(k) => sockets == old(sockets)[k := Closing(old(sockets)[k])]
      ensures data == old(data) && nextTimer == old(nextTimer)
      ensures delivered == old(delivered) && outbox == old(outbox)
    {
      if current.Some? {
        sockets := sockets[current.value := Closing(sockets[current.value])];
        current := None;
      }
      if timerRef.Some? {
        pending := pending - {timerRef.value};
        timerRef := None;
      }
      attempts := 0;
      status := Disconnected;
    }

    /** `send`: transmits and reports success exactly when the current socket is open. */
    method Send(text: string) returns (ok: bool)
      requires Valid()
      modifies this
      ensures Valid()
      ensures ok == old(IsOpen())
      ensures outbox == if ok then old(outbox) + [text] else old(outbox)
      ensures status == old(status) && data == old(data) && sockets == old(sockets) && current == old(current)
      ensures attempts == old(attempts) && timerRef == old(timerRef) && pending == old(pending)
      ensures nextTimer == old(nextTimer) && delivered == old(delivered)
    {
      ok := IsOpen();
      if ok {
        outbox := outbox + [text];
      }
    }

    /**
     * The close handler as it would read if it ignored sockets the hook has
     * let go of: only the current socket's unclean close schedules a
     * reconnect.
     */
    method OnCloseCurrent(id: nat, wasClean: bool)
      requires Valid() && id < |sockets| && sockets[id] != CLOSED
      modifies this
      ensures Valid()
      ensures sockets == old(sockets)[id := CLOSED]
      ensures current == old(current) && data == old(data)
      ensures delivered == old(delivered) && outbox == old(outbox)
      ensures status == if old(current) == Some(id) then Disconnected else old(status)
      ensures if old(current) == Some(id) && !wasClean && old(attempts) < reconnectAttempts then
          attempts == old(attempts) + 1 && timerRef == Some(old(nextTimer))
          && pending == {old(nextTimer)} && nextTimer == old(nextTimer) + 1
        else
          attempts == old(attempts) && timerRef == old(timerRef)
          && pending == old(pending) && nextTimer == old(nextTimer)
    {
      sockets := sockets[id := CLOSED];
      if current == Some(id) {
        status := Disconnected;
        if !wasClean && attempts < reconnectAttempts {
          attempts := attempts + 1;
          ScheduleReconnect();
        }
      }
    }
  }

  /** `close()`: a connecting or open socket starts closing; a closing or closed one stays as it is. */
  function Closing(s: ReadyState): (r: ReadyState)
    ensures r == CLOSING || r == CLOSED
    ensures r == CLOSED <==> s == CLOSED
  {
    if s == CLOSED then CLOSED else CLOSING
  }

  /** At most one reconnect timer is ever pending. */
  lemma AtMostOnePending<T>(h: Hook<T>)
    requires h.Valid()
    ensures |h.pending| <= 1
  {
    assert |RefSet(h.timerRef)| <= 1;
    SubsetSize(h.pending, RefSet(h.timerRef));
  }

  lemma {:induction false} SubsetSize(a: set<nat>, b: set<nat>)
    requires a <= b
    ensures |a| <= |b|
  {
    if a != {} {
      var x :| x in a;
      SubsetSize(a - {x}, b - {x});
    }
  }

  /**
   * After `disconnect` while the socket is still connecting, the browser
   * fails the connection and the socket reports an unclean close; the
   * handler of that socket, no longer the hook's, then schedules a
   * reconnect although the hook was told to disconnect.
   */
  method DisconnectWhileConnecting() returns (h: Hook<string>)
    ensures h.Valid() && h.current == None && h.status == Disconnected
    ensures h.attempts == 1 && |h.pending| == 1
  {
    h := new Hook(DefaultReconnectAttempts, DefaultReconnectInterval);
    h.Connect(true);
    h.Disconnect();
    h.OnClose(0, false);
  }

  /** The same events with the guarded close handler leave nothing pending. */
  method DisconnectWhileConnectingGuarded() returns (h: Hook<string>)
    ensures h.Valid() && h.current == None && h.status == Disconnected
    ensures h.attempts == 0 && h.pending == {}
  {
    h := new Hook(DefaultReconnectAttempts, DefaultReconnectInterval);
    h.Connect(true);
    h.Disconnect();
    h.OnCloseCurrent(0, false);
  }
}

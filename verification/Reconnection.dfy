/** What the WebSocket manager does for the page over whole runs: its timers connect, its attempts are counted, messages
    keep the connection, and a disconnect lasts. */
module Reconnection {
  import opened Options
  import opened WebSocketManager

  // ----- Connecting -----

  /** The events that construct a socket: a call of `connect`, the network coming back, the page becoming visible without
      an open socket, and the reconnect timer; each unless the constructor throws. */
  predicate ConstructsSocket(m: Manager, e: Event) {
    match e
    case ConnectCall(constructed) => constructed
    case NetworkOnline(constructed) => constructed
    case VisibilityChange(hidden, constructed) =>
      constructed && !hidden
      && !(m.ws.Some? && m.ws.value < |m.sockets| && m.sockets[m.ws.value].ready.Open?)
    case TimerFires(_, constructed) => constructed
    case _ => false
  }

  lemma {:induction false} ReadyKeepsSockets(m: Manager)
    ensures |ReadyToConnect(m).sockets| == |m.sockets|
    ensures ReadyToConnect(m).ws.None? && !ReadyToConnect(m).intentionallyClosed
    ensures TimersOk(m) ==> ReadyToConnect(m).reconnectTimer.None? && ReadyToConnect(m).liveTimers == {}
  {
  }

  lemma {:induction false} ConnectMakesSocket(m: Manager, constructed: bool)
    requires m.liveTimers <= HeldIn(m.reconnectTimer)
    ensures var n := Connect(m, constructed);
            if constructed then
              && n.ws == Some(|m.sockets|) && |n.sockets| == |m.sockets| + 1
              && n.sockets[|m.sockets|] == Socket(Connecting, true, false, false)
              && n.reconnectTimer.None? && n.liveTimers == {} && !n.intentionallyClosed
            else |n.sockets| == |m.sockets|
  {
    var ready := ReadyToConnect(m);
    ReadyKeepsSockets(m);
    assert ready.reconnectTimer.None? && ready.liveTimers == {};
    hide ReadyToConnect;
    if !constructed {
      assert |Reconnect(ready).sockets| == |ready.sockets|;
    }
  }

  lemma {:induction false} OthersMakeNoSocket(m: Manager, e: Event)
    requires Possible(m, e) && !e.ConnectCall? && !e.NetworkOnline? && !e.VisibilityChange? && !e.TimerFires?
    ensures |Handle(m, e).sockets| == |m.sockets|
  {
    match e {
      case SocketCloses(s) => assert |OnClose(m, s).sockets| == |m.sockets|;
      case SocketOpens(s) => assert |OnOpen(m, s).sockets| == |m.sockets|;
      case DisconnectCall => assert |Disconnect(m).sockets| == |m.sockets|;
      case _ =>
    }
  }

  /** After such an event the new socket is the current one, connecting and with its close handler attached, and no
      reconnect is pending; after any other event there is no new socket. */
  lemma {:induction false} ConnectsIff(m: Manager, e: Event)
    requires TimersOk(m) && Possible(m, e)
    ensures var n := Handle(m, e);
            if ConstructsSocket(m, e) then
              && n.ws == Some(|m.sockets|) && |n.sockets| == |m.sockets| + 1
              && n.sockets[|m.sockets|] == Socket(Connecting, true, false, false)
              && n.reconnectTimer.None? && n.liveTimers == {} && !n.intentionallyClosed
            else |n.sockets| == |m.sockets|
  {
    hide Connect, Disconnect, OnOpen, OnClose, OnTick;
    match e {
      case ConnectCall(constructed) => ConnectMakesSocket(m, constructed);
      case NetworkOnline(constructed) => ConnectMakesSocket(m, constructed);
      case VisibilityChange(_, constructed) => ConnectMakesSocket(m, constructed);
      case TimerFires(t, constructed) => ConnectMakesSocket(m.(liveTimers := m.liveTimers - {t}), constructed);
      case _ => OthersMakeNoSocket(m, e);
    }
  }

  ghost function Constructions(m: Manager, events: seq<Event>): nat
    decreases |events|
  {
    if events == [] || !Possible(m, events[0]) then 0
    else (if ConstructsSocket(m, events[0]) then 1 else 0) + Constructions(Handle(m, events[0]), events[1..])
  }

  /** On every run there are as many sockets as there were events that had to construct one: every reconnect timer that
      fires leads to a new socket, and nothing else does but the page and the network. */
  lemma {:induction false} SocketsAreCounted(m: Manager, events: seq<Event>, n: Manager)
    requires Inv(m) && Run(m, events, n)
    ensures |n.sockets| == |m.sockets| + Constructions(m, events)
    decreases |events|
  {
    if events != [] {
      ConnectsIff(m, events[0]);
      HandleKeepsInv(m, events[0]);
      hide Inv, ConstructsSocket, Handle, Possible;
      SocketsAreCounted(Handle(m, events[0]), events[1..], n);
    }
  }

  /** The reconnect timer reconnects: a socket that closes while the connection is wanted leaves a timer, and when that
      timer fires the page has a new socket. */
  lemma {:induction false} LostConnectionIsReplaced(m: Manager, s: nat)
    requires Inv(m) && m.ws == Some(s) && Possible(m, SocketCloses(s)) && !m.intentionallyClosed
    ensures var closed := Handle(m, SocketCloses(s));
            && closed.reconnectTimer == Some(m.timersCreated) && closed.liveTimers == {m.timersCreated}
            && Possible(closed, TimerFires(m.timersCreated, true))
            && Handle(closed, TimerFires(m.timersCreated, true)).ws == Some(|m.sockets|)
            && Handle(closed, TimerFires(m.timersCreated, true)).sockets[|m.sockets|].ready.Connecting?
  {
    HandleKeepsInv(m, SocketCloses(s));
    var closed := Handle(m, SocketCloses(s));
    assert SocketOk(m.sockets[s], true);
    assert closed.reconnectTimer == Some(m.timersCreated) && |closed.sockets| == |m.sockets|;
    hide Handle, Possible;
    TimerConnects(closed, m.timersCreated);
  }

  lemma {:induction false} TimerConnects(m: Manager, t: nat)
    requires Inv(m) && m.reconnectTimer == Some(t)
    ensures Possible(m, TimerFires(t, true))
    ensures var n := Handle(m, TimerFires(t, true));
            n.ws == Some(|m.sockets|) && |n.sockets| == |m.sockets| + 1 && n.sockets[|m.sockets|].ready.Connecting?
  {
    assert t in m.liveTimers;
    ConnectsIff(m, TimerFires(t, true));
  }

  // ----- Opening -----

  /** A connection that opens starts afresh: no attempt and no missed heartbeat counted, and a heartbeat running. */
  lemma {:induction false} OpenStartsAfresh(m: Manager, s: nat)
    requires Inv(m) && Possible(m, SocketOpens(s))
    ensures var n := Handle(m, SocketOpens(s));
            && n.ws == Some(s) && n.sockets[s].ready.Open?
            && n.reconnectAttempts == 0 && n.missedHeartbeats == 0
            && n.heartbeatInterval == Some(m.intervalsCreated) && n.liveIntervals == {m.intervalsCreated}
            && n.reconnectTimer == m.reconnectTimer
  {
    assert SocketOk(m.sockets[s], m.ws == Some(s));
    hide LifecycleOk, HeartbeatOk, BackoffOk;
  }

  /** The events that schedule a reconnect: the close of a socket whose handler is attached while the connection is
      wanted, and a constructor that throws. */
  predicate SchedulesReconnect(m: Manager, e: Event) {
    match e
    case SocketCloses(s) => s < |m.sockets| && m.sockets[s].reconnecting && !m.intentionallyClosed
    case ConnectCall(constructed) => !constructed
    case NetworkOnline(constructed) => !constructed
    case VisibilityChange(hidden, constructed) =>
      !constructed && !hidden
      && !(m.ws.Some? && m.ws.value < |m.sockets| && m.sockets[m.ws.value].ready.Open?)
    case TimerFires(_, constructed) => !constructed
    case _ => false
  }

  /** The reconnects scheduled since a connection last opened, `before` of them before these events. */
  ghost function AttemptsSinceOpen(m: Manager, events: seq<Event>, before: nat): nat
    decreases |events|
  {
    if events == [] || !Possible(m, events[0]) then before
    else AttemptsSinceOpen(Handle(m, events[0]), events[1..],
                           if events[0].SocketOpens? then 0
                           else if SchedulesReconnect(m, events[0]) then before + 1
                           else before)
  }

  lemma {:induction false} AttemptIsCountedIff(m: Manager, e: Event)
    requires Possible(m, e)
    ensures Handle(m, e).reconnectAttempts ==
            if e.SocketOpens? then 0
            else if SchedulesReconnect(m, e) then m.reconnectAttempts + 1
            else m.reconnectAttempts
  {
  }

  /** The attempt number, and with it the delay, counts exactly the reconnects scheduled since a connection last opened. */
  lemma {:induction false} AttemptsAreCounted(m: Manager, events: seq<Event>, n: Manager)
    requires Run(m, events, n)
    ensures n.reconnectAttempts == AttemptsSinceOpen(m, events, m.reconnectAttempts)
    decreases |events|
  {
    if events != [] {
      AttemptIsCountedIff(m, events[0]);
      hide Handle, Possible, SchedulesReconnect;
      AttemptsAreCounted(Handle(m, events[0]), events[1..], n);
    }
  }

  // ----- Messages against the heartbeat -----

  /** Heartbeat ticks since the last message that could be parsed, `before` of them before these events. */
  function Unanswered(events: seq<Event>, before: nat): nat
    decreases |events|
  {
    if events == [] then before
    else Unanswered(events[1..],
                    if events[0].Tick? then before + 1
                    else if events[0].MessageArrives? && !events[0].message.Unparsable? then 0
                    else before)
  }

  lemma {:induction false} UnansweredGrows(events: seq<Event>, before: nat, more: nat)
    requires before <= more
    ensures Unanswered(events, before) <= Unanswered(events, more)
    decreases |events|
  {
    if events != [] {
      UnansweredGrows(events[1..],
                      if events[0].Tick? then before + 1
                      else if events[0].MessageArrives? && !events[0].message.Unparsable? then 0
                      else before,
                      if events[0].Tick? then more + 1
                      else if events[0].MessageArrives? && !events[0].message.Unparsable? then 0
                      else more);
    }
  }

  lemma {:induction false} MissedAfterEvent(m: Manager, e: Event)
    requires Possible(m, e)
    ensures Handle(m, e).missedHeartbeats <=
            if e.Tick? then m.missedHeartbeats + 1
            else if e.MessageArrives? && !e.message.Unparsable? then 0
            else m.missedHeartbeats
  {
    match e {
      case SocketCloses(s) => assert OnClose(m, s).missedHeartbeats <= m.missedHeartbeats;
      case SocketOpens(s) => assert OnOpen(m, s).missedHeartbeats == 0;
      case _ =>
    }
  }

  /** Any message that can be parsed resets the counter: it never exceeds the ticks since the last one. */
  lemma {:induction false} MissedAreUnanswered(m: Manager, events: seq<Event>, n: Manager, before: nat)
    requires Run(m, events, n) && m.missedHeartbeats <= before
    ensures n.missedHeartbeats <= Unanswered(events, before)
    decreases |events|
  {
    if events != [] {
      MissedAfterEvent(m, events[0]);
      hide Handle, Possible;
      MissedAreUnanswered(Handle(m, events[0]), events[1..], n,
                          if events[0].Tick? then before + 1
                          else if events[0].MessageArrives? && !events[0].message.Unparsable? then 0
                          else before);
    }
  }

  /** On every run, a tick closes a socket only if the two ticks before it went unanswered as well: a connection that
      brings a message between any two ticks is never closed by the heartbeat, which goes on to ping. */
  lemma {:induction false} AnsweredConnectionIsKept(events: seq<Event>, m: Manager, i: nat)
    requires Run(NewManager(), events, m) && Possible(m, Tick(i)) && Unanswered(events, 0) <= 1
    ensures Handle(m, Tick(i)).sockets == m.sockets && Handle(m, Tick(i)).ws == m.ws
    ensures IsOpen(m) ==> Handle(m, Tick(i)).pings == m.pings + 1
  {
    MissedAreUnanswered(NewManager(), events, m, 0);
  }

  // ----- Disconnecting -----

  /** After a call of `disconnect`, and whatever happens until something calls `connect`, nothing is held, every socket has
      been told to close, and no timer can fire. */
  lemma {:induction false} DisconnectLasts(m: Manager, events: seq<Event>, n: Manager)
    requires Inv(m) && events != [] && events[0].DisconnectCall? && Run(m, events, n)
    requires forall i :: 0 < i < |events| ==> !CallsConnect(events[i])
    ensures Idle(n) && n.intentionallyClosed
    ensures forall s :: 0 <= s < |n.sockets| ==> n.sockets[s].closeCalled
    ensures forall t, constructed :: !Possible(n, TimerFires(t, constructed))
  {
    var next := Handle(m, events[0]);
    HandleKeepsInv(m, events[0]);
    assert next.intentionallyClosed;
    assert forall i :: 0 <= i < |events| - 1 ==> events[1..][i] == events[i + 1];
    hide Handle;
    IdleUntilNextConnect(next, events[1..], n);
    RunKeepsInv(next, events[1..], n);
    assert forall s :: 0 <= s < |n.sockets| ==> SocketOk(n.sockets[s], n.ws == Some(s));
  }
}

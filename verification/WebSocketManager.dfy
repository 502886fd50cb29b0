/** The reconnecting WebSocket client of the dashboard, driven by arbitrary orders of browser events. */
module WebSocketManager {
  import opened Options

  datatype Ready = Connecting | Open | Closing | Closed

  /** `reconnecting` says that the manager's onclose handler is still attached. */
  datatype Socket = Socket(ready: Ready, reconnecting: bool, closeCalled: bool, closeFired: bool)

  /** The manager's fields, the browser's sockets, timers and intervals, and what is recorded for the proofs:
      `started` (connect has been called), `pings` (heartbeat pings sent on the current socket since it last
      received a message) and `scheduled` (base delays of the reconnects since the last successful open). */
  datatype Manager = Manager(
    ws: Option<nat>,
    reconnectTimer: Option<nat>,
    heartbeatInterval: Option<nat>,
    intentionallyClosed: bool,
    missedHeartbeats: nat,
    reconnectAttempts: nat,
    sockets: seq<Socket>,
    liveTimers: set<nat>,
    timersCreated: nat,
    liveIntervals: set<nat>,
    intervalsCreated: nat,
    started: bool,
    pings: nat,
    scheduled: seq<nat>)

  const BASE_DELAY: nat := 1000
  const MAX_DELAY: nat := 30000
  const MAX_MISSED: nat := 3

  function NewManager(): Manager {
    Manager(None, None, None, false, 0, 0, [], {}, 0, {}, 0, false, 0, [])
  }

  // ----- Back-off -----

  function Pow2(n: nat): nat {
    if n == 0 then 1 else 2 * Pow2(n - 1)
  }

  /** The delay before attempt n, without jitter. */
  function BaseDelay(attempt: nat): nat
    requires attempt >= 1
  {
    var exponential := BASE_DELAY * Pow2(attempt - 1);
    if exponential < MAX_DELAY then exponential else MAX_DELAY
  }

  lemma {:induction false} Pow2AtLeast(n: nat)
    requires n >= 5
    ensures Pow2(n) >= 32
  {
    if n == 5 {
      assert Pow2(3) == 8;
    } else {
      Pow2AtLeast(n - 1);
    }
  }

  lemma {:induction false} BaseDelayIsCappedIff(attempt: nat)
    requires attempt >= 1
    ensures BaseDelay(attempt) == MAX_DELAY <==> attempt >= 6
    ensures BaseDelay(attempt) <= BaseDelay(attempt + 1)
  {
    if attempt >= 6 {
      Pow2AtLeast(attempt - 1);
    } else {
      assert Pow2(2) == 4;
      assert Pow2(attempt - 1) <= 16;
    }
  }

  function TotalBaseDelay(failures: nat): nat {
    if failures == 0 then 0 else TotalBaseDelay(failures - 1) + BaseDelay(failures)
  }

  /** The closed form of the time spent waiting over straight failures. */
  lemma {:induction false} TotalBaseDelayClosedForm(failures: nat)
    ensures failures <= 5 ==> TotalBaseDelay(failures) == 1000 * (Pow2(failures) - 1)
    ensures failures >= 5 ==> TotalBaseDelay(failures) == 31000 + 30000 * (failures - 5)
  {
    if failures > 0 {
      TotalBaseDelayClosedForm(failures - 1);
      BaseDelayIsCappedIff(failures);
      if failures <= 5 {
        assert Pow2(failures) == 2 * Pow2(failures - 1);
      }
      if failures == 5 {
        assert Pow2(3) == 8 && Pow2(5) == 32;
      }
    }
  }

  /** Delays with jitter: each is its base delay plus less than a second. */
  ghost function TotalDelay(jitters: seq<real>): real {
    if jitters == [] then 0.0
    else TotalDelay(jitters[..|jitters| - 1]) + BaseDelay(|jitters|) as real + jitters[|jitters| - 1]
  }

  lemma {:induction false} JitterAddsLessThanASecondEach(jitters: seq<real>)
    requires forall i :: 0 <= i < |jitters| ==> 0.0 <= jitters[i] < 1000.0
    ensures TotalBaseDelay(|jitters|) as real <= TotalDelay(jitters)
    ensures |jitters| >= 1 ==> TotalDelay(jitters) < (TotalBaseDelay(|jitters|) + 1000 * |jitters|) as real
  {
    if jitters != [] {
      var init := jitters[..|jitters| - 1];
      assert forall i :: 0 <= i < |init| ==> init[i] == jitters[i];
      JitterAddsLessThanASecondEach(init);
      if init == [] {
        assert TotalDelay(init) == 0.0;
      }
    }
  }

  // ----- The manager's methods -----

  predicate IsOpen(m: Manager) {
    m.ws.Some? && m.ws.value < |m.sockets| && m.sockets[m.ws.value].ready.Open?
  }

  /** close() on a connecting or open socket starts the closing handshake; otherwise it does nothing. */
  function Close(s: Socket): Socket {
    s.(closeCalled := true,
       ready := if s.ready.Connecting? || s.ready.Open? then Closing else s.ready)
  }

  function CloseCurrent(m: Manager): Manager {
    if m.ws.Some? && m.ws.value < |m.sockets| then
      m.(sockets := m.sockets[m.ws.value := Close(m.sockets[m.ws.value])])
    else m
  }

  function ClearTimer(m: Manager): Manager {
    match m.reconnectTimer
    case Some(t) => m.(reconnectTimer := None, liveTimers := m.liveTimers - {t})
    case None => m
  }

  function StopHeartbeat(m: Manager): Manager {
    match m.heartbeatInterval
    case Some(i) => m.(heartbeatInterval := None, liveIntervals := m.liveIntervals - {i}, missedHeartbeats := 0)
    case None => m.(missedHeartbeats := 0)
  }

  function StartHeartbeat(m: Manager): Manager {
    var stopped := StopHeartbeat(m);
    stopped.(heartbeatInterval := Some(m.intervalsCreated), intervalsCreated := m.intervalsCreated + 1,
             liveIntervals := stopped.liveIntervals + {m.intervalsCreated})
  }

  function Reconnect(m: Manager): Manager {
    if m.intentionallyClosed then m
    else
      var cleared := ClearTimer(m);
      cleared.(reconnectAttempts := m.reconnectAttempts + 1,
               reconnectTimer := Some(m.timersCreated), timersCreated := m.timersCreated + 1,
               liveTimers := cleared.liveTimers + {m.timersCreated},
               scheduled := m.scheduled + [BaseDelay(m.reconnectAttempts + 1)])
  }

  /** The old socket is closed with its onclose handler detached. */
  function DropSocket(m: Manager): Manager {
    if m.ws.Some? && m.ws.value < |m.sockets| then
      m.(sockets := m.sockets[m.ws.value := Close(m.sockets[m.ws.value].(reconnecting := false))], ws := None)
    else m.(ws := None)
  }

  /** What `connect` clears away before it creates a socket. */
  function ReadyToConnect(m: Manager): Manager {
    DropSocket(ClearTimer(m)).(intentionallyClosed := false, started := true)
  }

  function CreateSocket(m: Manager): Manager {
    m.(ws := Some(|m.sockets|), sockets := m.sockets + [Socket(Connecting, true, false, false)], pings := 0)
  }

  /** `constructed` is false when the WebSocket constructor throws. */
  function Connect(m: Manager, constructed: bool): Manager {
    if constructed then CreateSocket(ReadyToConnect(m)) else Reconnect(ReadyToConnect(m))
  }

  function Disconnect(m: Manager): Manager {
    CloseCurrent(ClearTimer(StopHeartbeat(m.(intentionallyClosed := true)))).(ws := None)
  }

  function OnOpen(m: Manager, s: nat): Manager
    requires s < |m.sockets|
  {
    StartHeartbeat(m.(sockets := m.sockets[s := m.sockets[s].(ready := Open)],
                      reconnectAttempts := 0, missedHeartbeats := 0, pings := 0, scheduled := []))
  }

  function OnClose(m: Manager, s: nat): Manager
    requires s < |m.sockets|
  {
    var closed := m.(sockets := m.sockets[s := m.sockets[s].(ready := Closed, closeFired := true)]);
    if m.sockets[s].reconnecting then Reconnect(StopHeartbeat(closed)) else closed
  }

  function OnTick(m: Manager): Manager {
    if IsOpen(m) then
      var missed := m.(missedHeartbeats := m.missedHeartbeats + 1);
      if missed.missedHeartbeats >= MAX_MISSED then CloseCurrent(missed) else missed.(pings := m.pings + 1)
    else m
  }

  // ----- Events -----

  datatype Message = Unparsable | Pong | Data

  datatype Event =
    | ConnectCall(constructed: bool)
    | DisconnectCall
    | VisibilityChange(hidden: bool, constructed: bool)
    | NetworkOnline(constructed: bool)
    | SocketOpens(s: nat)
    | MessageArrives(s: nat, message: Message)
    | SocketError(s: nat)
    | SocketCloses(s: nat)
    | TimerFires(t: nat, constructed: bool)
    | Tick(i: nat)

  /** What the browser guarantees: a socket on which close() was called never opens, messages arrive on open
      sockets only, a socket closes once, and only live timers and intervals fire. */
  predicate Possible(m: Manager, e: Event) {
    match e
    case SocketOpens(s) => s < |m.sockets| && m.sockets[s].ready.Connecting? && !m.sockets[s].closeCalled
    case MessageArrives(s, _) => s < |m.sockets| && m.sockets[s].ready.Open?
    case SocketError(s) => s < |m.sockets| && !m.sockets[s].closeFired
    case SocketCloses(s) => s < |m.sockets| && !m.sockets[s].closeFired
    case TimerFires(t, _) => t in m.liveTimers
    case Tick(i) => i in m.liveIntervals
    case _ => true
  }

  function Handle(m: Manager, e: Event): Manager
    requires Possible(m, e)
  {
    match e
    case ConnectCall(constructed) => Connect(m, constructed)
    case DisconnectCall => Disconnect(m)
    case VisibilityChange(hidden, constructed) => if !hidden && !IsOpen(m) then Connect(m, constructed) else m
    case NetworkOnline(constructed) => Connect(m, constructed)
    case SocketOpens(s) => OnOpen(m, s)
    case MessageArrives(_, message) => if message.Unparsable? then m else m.(missedHeartbeats := 0, pings := 0)
    case SocketError(_) => m
    case SocketCloses(s) => OnClose(m, s)
    case TimerFires(t, constructed) => Connect(m.(liveTimers := m.liveTimers - {t}), constructed)
    case Tick(_) => OnTick(m)
  }

  ghost predicate Run(m: Manager, events: seq<Event>, n: Manager)
    decreases |events|
  {
    if events == [] then m == n
    else Possible(m, events[0]) && Run(Handle(m, events[0]), events[1..], n)
  }

  // ----- What every run keeps -----

  ghost function HeldIn(field: Option<nat>): set<nat> {
    match field
    case Some(x) => {x}
    case None => {}
  }

  /** The live timer and the live interval, if any, are the ones in the fields: at most one of each. */
  ghost predicate TimersOk(m: Manager) {
    && m.liveTimers == HeldIn(m.reconnectTimer) && m.liveIntervals == HeldIn(m.heartbeatInterval)
    && (m.reconnectTimer.Some? ==> m.reconnectTimer.value < m.timersCreated)
    && (m.heartbeatInterval.Some? ==> m.heartbeatInterval.value < m.intervalsCreated)
  }

  ghost predicate SocketOk(s: Socket, current: bool) {
    && (s.closeFired <==> s.ready.Closed?)
    && (s.closeCalled ==> s.ready.Closing? || s.ready.Closed?)
    && (if current then s.reconnecting else s.closeCalled)
  }

  ghost predicate SocketsOk(m: Manager) {
    && (m.ws.Some? ==> m.ws.value < |m.sockets|)
    && forall s :: 0 <= s < |m.sockets| ==> SocketOk(m.sockets[s], m.ws == Some(s))
  }

  /** Someone will reconnect: a timer is pending, or the current socket's close will start one. */
  ghost predicate WillReconnect(m: Manager) {
    m.reconnectTimer.Some?
    || (m.ws.Some? && m.ws.value < |m.sockets|
        && m.sockets[m.ws.value].reconnecting && !m.sockets[m.ws.value].closeFired)
  }

  ghost predicate Idle(m: Manager) {
    m.ws.None? && m.reconnectTimer.None? && m.heartbeatInterval.None? && m.liveTimers == {} && m.liveIntervals == {}
  }

  ghost predicate LifecycleOk(m: Manager) {
    && (m.started && !m.intentionallyClosed ==> WillReconnect(m))
    && (!m.started || m.intentionallyClosed ==> Idle(m))
    && (!m.started ==> m.sockets == [])
  }

  ghost predicate HeartbeatOk(m: Manager) {
    IsOpen(m) ==>
      && m.missedHeartbeats < MAX_MISSED && m.pings < MAX_MISSED
      && (m.heartbeatInterval.Some? ==> m.pings <= m.missedHeartbeats)
  }

  ghost predicate BackoffOk(m: Manager) {
    && |m.scheduled| == m.reconnectAttempts
    && forall i :: 0 <= i < |m.scheduled| ==> m.scheduled[i] == BaseDelay(i + 1)
  }

  ghost predicate Inv(m: Manager) {
    TimersOk(m) && SocketsOk(m) && LifecycleOk(m) && HeartbeatOk(m) && BackoffOk(m)
  }

  ghost predicate Cleared(m: Manager) {
    && m.ws.None? && m.reconnectTimer.None? && m.started && !m.intentionallyClosed
    && TimersOk(m) && SocketsOk(m) && BackoffOk(m)
  }

  /** The reconnect timer may just have fired, and still be in its field. */
  lemma {:induction false} ReadyToConnectClears(m: Manager)
    requires SocketsOk(m) && BackoffOk(m)
    requires m.liveTimers <= HeldIn(m.reconnectTimer) && TimersOk(m.(liveTimers := HeldIn(m.reconnectTimer)))
    ensures Cleared(ReadyToConnect(m))
  {
  }

  lemma {:induction false} CreateSocketKeepsInv(m: Manager)
    requires Cleared(m)
    ensures Inv(CreateSocket(m))
  {
  }

  lemma {:induction false} ReconnectKeepsInv(m: Manager)
    requires TimersOk(m) && SocketsOk(m) && BackoffOk(m) && HeartbeatOk(m) && m.started && !m.intentionallyClosed
    ensures Inv(Reconnect(m))
  {
  }

  lemma {:induction false} ConnectKeepsInv(m: Manager, constructed: bool)
    requires SocketsOk(m) && BackoffOk(m)
    requires m.liveTimers <= HeldIn(m.reconnectTimer) && TimersOk(m.(liveTimers := HeldIn(m.reconnectTimer)))
    ensures Inv(Connect(m, constructed))
  {
    ReadyToConnectClears(m);
    if constructed {
      CreateSocketKeepsInv(ReadyToConnect(m));
    } else {
      ReconnectKeepsInv(ReadyToConnect(m));
    }
    hide ReadyToConnect, CreateSocket, Reconnect, Inv;
  }

  lemma {:induction false} OpenKeepsInv(m: Manager, s: nat)
    requires Inv(m) && Possible(m, SocketOpens(s))
    ensures Inv(OnOpen(m, s))
  {
    assert SocketOk(m.sockets[s], m.ws == Some(s));
  }

  lemma {:induction false} CloseKeepsInv(m: Manager, s: nat)
    requires Inv(m) && Possible(m, SocketCloses(s))
    ensures Inv(OnClose(m, s))
  {
    assert SocketOk(m.sockets[s], m.ws == Some(s));
    var closed := m.(sockets := m.sockets[s := m.sockets[s].(ready := Closed, closeFired := true)]);
    assert SocketsOk(closed);
    if m.sockets[s].reconnecting && !m.intentionallyClosed {
      assert TimersOk(StopHeartbeat(closed));
      ReconnectKeepsInv(StopHeartbeat(closed));
    }
  }

  lemma {:induction false} DisconnectKeepsInv(m: Manager)
    requires Inv(m)
    ensures Inv(Disconnect(m))
  {
  }

  lemma {:induction false} TickKeepsInv(m: Manager, i: nat)
    requires Inv(m) && Possible(m, Tick(i))
    ensures Inv(OnTick(m))
  {
  }

  lemma {:induction false} HandleKeepsInv(m: Manager, e: Event)
    requires Inv(m) && Possible(m, e)
    ensures Inv(Handle(m, e))
  {
    match e {
      case ConnectCall(constructed) => ConnectKeepsInv(m, constructed);
      case DisconnectCall => DisconnectKeepsInv(m);
      case VisibilityChange(_, constructed) => ConnectKeepsInv(m, constructed);
      case NetworkOnline(constructed) => ConnectKeepsInv(m, constructed);
      case SocketOpens(s) => OpenKeepsInv(m, s);
      case SocketCloses(s) => CloseKeepsInv(m, s);
      case TimerFires(t, constructed) => ConnectKeepsInv(m.(liveTimers := m.liveTimers - {t}), constructed);
      case Tick(i) => TickKeepsInv(m, i);
      case MessageArrives(_, _) => assert Inv(Handle(m, e));
      case SocketError(_) =>
    }
    hide Connect, Disconnect, OnOpen, OnClose, OnTick;
  }

  lemma {:induction false} RunKeepsInv(m: Manager, events: seq<Event>, n: Manager)
    requires Inv(m) && Run(m, events, n)
    ensures Inv(n)
    decreases |events|
  {
    if events != [] {
      HandleKeepsInv(m, events[0]);
      RunKeepsInv(Handle(m, events[0]), events[1..], n);
    }
  }

  // ----- The main results -----

  /** In every reachable state: at most one live timer and one live interval, both held in their fields; and
      while the connection is wanted, something is going to restore it. */
  lemma {:induction false} EveryRunIsOrderly(events: seq<Event>, m: Manager)
    requires Run(NewManager(), events, m)
    ensures m.liveTimers == HeldIn(m.reconnectTimer) && m.liveIntervals == HeldIn(m.heartbeatInterval)
    ensures m.started && !m.intentionallyClosed ==> WillReconnect(m)
    ensures m.intentionallyClosed ==> Idle(m)
    ensures IsOpen(m) ==> m.missedHeartbeats <= 2 && m.pings <= 2
    ensures forall s :: 0 <= s < |m.sockets| && m.ws != Some(s) ==> m.sockets[s].closeCalled
  {
    RunKeepsInv(NewManager(), events, m);
  }

  predicate CallsConnect(e: Event) {
    e.ConnectCall? || e.NetworkOnline? || (e.VisibilityChange? && !e.hidden)
  }

  /** After `disconnect`, and until something calls `connect` again, no socket, timer or interval is held. */
  lemma {:induction false} IdleUntilNextConnect(m: Manager, events: seq<Event>, n: Manager)
    requires Inv(m) && m.intentionallyClosed && Run(m, events, n)
    requires forall i :: 0 <= i < |events| ==> !CallsConnect(events[i])
    ensures Idle(n) && n.intentionallyClosed
    decreases |events|
  {
    if events != [] {
      assert !CallsConnect(events[0]);
      assert forall i :: 0 <= i < |events| - 1 ==> events[1..][i] == events[i + 1];
      HandleKeepsInv(m, events[0]);
      IdleUntilNextConnect(Handle(m, events[0]), events[1..], n);
    }
  }

  /** Events that bring the manager no sign of life and leave the connection alone. */
  predicate Silent(e: Event) {
    e.Tick? || e.SocketError? || (e.MessageArrives? && e.message.Unparsable?) || (e.VisibilityChange? && e.hidden)
  }

  function Ticks(events: seq<Event>): nat {
    if events == [] then 0 else (if events[0].Tick? then 1 else 0) + Ticks(events[1..])
  }

  /** A silent socket is closed by the tick that makes three missed heartbeats, and by no earlier one; each of
      the ticks before it sends one ping. */
  lemma {:induction false} ThirdMissedHeartbeatCloses(m: Manager, events: seq<Event>, n: Manager)
    requires Inv(m) && IsOpen(m) && Run(m, events, n)
    requires forall i :: 0 <= i < |events| ==> Silent(events[i])
    ensures n.ws == m.ws && |n.sockets| == |m.sockets|
    ensures m.missedHeartbeats + Ticks(events) < 3 ==>
              IsOpen(n) && n.missedHeartbeats == m.missedHeartbeats + Ticks(events)
              && n.pings == m.pings + Ticks(events)
    ensures m.missedHeartbeats + Ticks(events) >= 3 ==>
              n.sockets[n.ws.value].ready.Closing? && n.sockets[n.ws.value].closeCalled
    decreases |events|
  {
    if events != [] {
      var next := Handle(m, events[0]);
      assert Silent(events[0]);
      assert forall i :: 0 <= i < |events| - 1 ==> events[1..][i] == events[i + 1];
      HandleKeepsInv(m, events[0]);
      if IsOpen(next) {
        ThirdMissedHeartbeatCloses(next, events[1..], n);
      } else {
        ClosingStaysClosing(next, events[1..], n);
      }
    }
  }

  lemma {:induction false} ClosingStaysClosing(m: Manager, events: seq<Event>, n: Manager)
    requires m.ws.Some? && m.ws.value < |m.sockets| && m.sockets[m.ws.value].ready.Closing? && Run(m, events, n)
    requires forall i :: 0 <= i < |events| ==> Silent(events[i])
    ensures n.ws == m.ws && n.sockets == m.sockets
    decreases |events|
  {
    if events != [] {
      assert Silent(events[0]);
      assert forall i :: 0 <= i < |events| - 1 ==> events[1..][i] == events[i + 1];
      ClosingStaysClosing(Handle(m, events[0]), events[1..], n);
    }
  }

  /** A socket that `disconnect` let go of, with its onclose handler still attached. */
  predicate StaleClose(m: Manager, e: Event) {
    e.SocketCloses? && e.s < |m.sockets| && m.ws != Some(e.s) && m.sockets[e.s].reconnecting
  }

  /** As long as the same socket stays open, its heartbeat goes on unless a stale socket closes. */
  lemma {:induction false} HeartbeatGoesOnIff(m: Manager, e: Event)
    requires Inv(m) && IsOpen(m) && m.heartbeatInterval.Some? && Possible(m, e)
    requires IsOpen(Handle(m, e)) && Handle(m, e).ws == m.ws
    ensures Handle(m, e).heartbeatInterval.Some? <==> !StaleClose(m, e)
  {
    assert forall s :: 0 <= s < |m.sockets| ==> SocketOk(m.sockets[s], m.ws == Some(s));
  }

  lemma {:induction false} AppendEvent(m: Manager, events: seq<Event>, n: Manager, e: Event)
    requires Run(m, events, n) && Possible(n, e)
    ensures Run(m, events + [e], Handle(n, e))
    decreases |events|
  {
    if events == [] {
      assert Run(Handle(n, e), [], Handle(n, e));
      assert ([] + [e])[1..] == [];
    } else {
      AppendEvent(Handle(m, events[0]), events[1..], n, e);
      assert (events + [e])[1..] == events[1..] + [e];
    }
  }

  /** Disconnect and connect again before the first socket has reported its close. */
  lemma {:induction false} SecondSocketWhileFirstIsClosing() returns (events: seq<Event>, m: Manager)
    ensures Run(NewManager(), events, m) && m.ws == Some(1) && !m.intentionallyClosed
    ensures m.sockets == [Socket(Closing, true, true, false), Socket(Connecting, true, false, false)]
    ensures m.heartbeatInterval.None? && m.reconnectTimer.None?
  {
    var m0 := NewManager();
    var m1 := Handle(m0, ConnectCall(true));
    var m2 := Handle(m1, SocketOpens(0));
    var m3 := Handle(m2, DisconnectCall);
    m := Handle(m3, ConnectCall(true));
    assert Run(m0, [], m0);
    hide Run;
    AppendEvent(m0, [], m0, ConnectCall(true));
    AppendEvent(m0, [] + [ConnectCall(true)], m1, SocketOpens(0));
    AppendEvent(m0, [] + [ConnectCall(true)] + [SocketOpens(0)], m2, DisconnectCall);
    events := [] + [ConnectCall(true)] + [SocketOpens(0)] + [DisconnectCall] + [ConnectCall(true)];
    AppendEvent(m0, [] + [ConnectCall(true)] + [SocketOpens(0)] + [DisconnectCall], m3, ConnectCall(true));
  }

  /** It can happen: disconnect, connect again, and only then the first socket reports its close. The new
      connection stays open without a heartbeat, and a reconnect is already scheduled to replace it. */
  lemma {:induction false} StaleCloseStopsTheHeartbeat() returns (events: seq<Event>, m: Manager)
    ensures Run(NewManager(), events, m)
    ensures IsOpen(m) && m.heartbeatInterval.None? && m.reconnectTimer.Some? && !m.intentionallyClosed
  {
    var before, m4 := SecondSocketWhileFirstIsClosing();
    var m5 := Handle(m4, SocketOpens(1));
    m := Handle(m5, SocketCloses(0));
    hide Run;
    AppendEvent(NewManager(), before, m4, SocketOpens(1));
    AppendEvent(NewManager(), before + [SocketOpens(1)], m5, SocketCloses(0));
    events := before + [SocketOpens(1)] + [SocketCloses(0)];
  }

  function SumOf(delays: seq<nat>): nat {
    if delays == [] then 0 else SumOf(delays[..|delays| - 1]) + delays[|delays| - 1]
  }

  lemma {:induction false} SumOfBaseDelays(delays: seq<nat>)
    requires forall i :: 0 <= i < |delays| ==> delays[i] == BaseDelay(i + 1)
    ensures SumOf(delays) == TotalBaseDelay(|delays|)
  {
    if delays != [] {
      var init := delays[..|delays| - 1];
      assert forall i :: 0 <= i < |init| ==> init[i] == delays[i];
      SumOfBaseDelays(init);
    }
  }

  /** On every run, the base delays scheduled since the connection was last open add up to the closed form. */
  lemma {:induction false} BackoffOnEveryRun(events: seq<Event>, m: Manager)
    requires Run(NewManager(), events, m)
    ensures |m.scheduled| == m.reconnectAttempts
    ensures m.reconnectAttempts <= 5 ==> SumOf(m.scheduled) == 1000 * (Pow2(m.reconnectAttempts) - 1)
    ensures m.reconnectAttempts >= 5 ==> SumOf(m.scheduled) == 31000 + 30000 * (m.reconnectAttempts - 5)
  {
    RunKeepsInv(NewManager(), events, m);
    SumOfBaseDelays(m.scheduled);
    TotalBaseDelayClosedForm(m.reconnectAttempts);
  }

  // ----- The manager object -----

  lemma {:induction false} ReadyForConnect(m: Manager, constructed: bool)
    requires Inv(m)
    ensures Inv(Connect(m, constructed)) && Inv(Disconnect(m))
    ensures m.ws.Some? ==> m.ws.value < |m.sockets|
    ensures Idle(Disconnect(m))
  {
    ConnectKeepsInv(m, constructed);
    DisconnectKeepsInv(m);
  }

  /** The manager's fields, with the browser's sockets, timers and intervals beside them. */
  class WebSocketManager {
    var ws: Option<nat>
    var reconnectTimer: Option<nat>
    var heartbeatInterval: Option<nat>
    var intentionallyClosed: bool
    var missedHeartbeats: nat
    var reconnectAttempts: nat
    var sockets: seq<Socket>
    var liveTimers: set<nat>
    var timersCreated: nat
    var liveIntervals: set<nat>
    var intervalsCreated: nat
    ghost var started: bool
    ghost var pings: nat
    ghost var scheduled: seq<nat>

    ghost function Contents(): Manager
      reads this
    {
      Manager(ws, reconnectTimer, heartbeatInterval, intentionallyClosed, missedHeartbeats, reconnectAttempts,
              sockets, liveTimers, timersCreated, liveIntervals, intervalsCreated, started, pings, scheduled)
    }

    ghost predicate Valid()
      reads this
    {
      Inv(Contents())
    }

    constructor ()
      ensures Valid() && Contents() == NewManager()
    {
      ws, reconnectTimer, heartbeatInterval := None, None, None;
      intentionallyClosed, missedHeartbeats, reconnectAttempts := false, 0, 0;
      sockets, liveTimers, liveIntervals := [], {}, {};
      timersCreated, intervalsCreated := 0, 0;
      started, pings, scheduled := false, 0, [];
    }

    method CloseSocket(s: nat)
      requires s < |sockets|
      modifies this`sockets
      ensures sockets == old(sockets)[s := Close(old(sockets)[s])]
    {
      var ready := sockets[s].ready;
      if ready == Connecting || ready == Open {
        ready := Closing;
      }
      sockets := sockets[s := sockets[s].(ready := ready, closeCalled := true)];
    }

    method ClearReconnectTimer()
      modifies this`reconnectTimer, this`liveTimers
      ensures Contents() == ClearTimer(old(Contents()))
    {
      if reconnectTimer.Some? {
        liveTimers := liveTimers - {reconnectTimer.value};
        reconnectTimer := None;
      }
    }

    method StopHeartbeatTimer()
      modifies this`heartbeatInterval, this`liveIntervals, this`missedHeartbeats
      ensures Contents() == StopHeartbeat(old(Contents()))
    {
      if heartbeatInterval.Some? {
        liveIntervals := liveIntervals - {heartbeatInterval.value};
        heartbeatInterval := None;
      }
      missedHeartbeats := 0;
    }

    method StartHeartbeatTimer()
      modifies this`heartbeatInterval, this`liveIntervals, this`missedHeartbeats, this`intervalsCreated
      ensures Contents() == StartHeartbeat(old(Contents()))
    {
      StopHeartbeatTimer();
      liveIntervals := liveIntervals + {intervalsCreated};
      heartbeatInterval := Some(intervalsCreated);
      intervalsCreated := intervalsCreated + 1;
    }

    method ScheduleReconnect()
      modifies this`reconnectTimer, this`liveTimers, this`timersCreated, this`reconnectAttempts, this`scheduled
      ensures Contents() == Reconnect(old(Contents()))
    {
      if intentionallyClosed {
        return;
      }
      ClearReconnectTimer();
      reconnectAttempts := reconnectAttempts + 1;
      var delay := BaseDelay(reconnectAttempts);
      liveTimers := liveTimers + {timersCreated};
      reconnectTimer := Some(timersCreated);
      timersCreated := timersCreated + 1;
      scheduled := scheduled + [delay];
    }

    /** The first half of `connect`: clear the timer and close the old socket without its handler. */
    method DropConnection()
      requires ws.Some? ==> ws.value < |sockets|
      modifies this
      ensures Contents() == ReadyToConnect(old(Contents()))
    {
      ClearReconnectTimer();
      if ws.Some? {
        sockets := sockets[ws.value := sockets[ws.value].(reconnecting := false)];
        CloseSocket(ws.value);
        ws := None;
      }
      intentionallyClosed := false;
      started := true;
    }

    /** `constructed` says whether the WebSocket constructor returns or throws. */
    method OpenConnection(constructed: bool)
      requires Valid()
      modifies this
      ensures Valid() && Contents() == Connect(old(Contents()), constructed)
    {
      ReadyForConnect(Contents(), constructed);
      hide Inv, ReadyToConnect;
      DropConnection();
      if constructed {
        ws := Some(|sockets|);
        sockets := sockets + [Socket(Connecting, true, false, false)];
        pings := 0;
      } else {
        ScheduleReconnect();
      }
    }

    method CloseConnection()
      requires Valid()
      modifies this
      ensures Valid() && Contents() == Disconnect(old(Contents())) && Idle(Contents())
    {
      ReadyForConnect(Contents(), true);
      hide Inv, Idle;
      intentionallyClosed := true;
      StopHeartbeatTimer();
      ClearReconnectTimer();
      if ws.Some? {
        CloseSocket(ws.value);
        ws := None;
      }
    }

    method SocketOpened(s: nat)
      requires Valid() && Possible(Contents(), SocketOpens(s))
      modifies this
      ensures Valid() && Contents() == OnOpen(old(Contents()), s)
    {
      OpenKeepsInv(Contents(), s);
      sockets := sockets[s := sockets[s].(ready := Open)];
      reconnectAttempts := 0;
      scheduled := [];
      missedHeartbeats := 0;
      pings := 0;
      StartHeartbeatTimer();
    }

    method SocketClosed(s: nat)
      requires Valid() && Possible(Contents(), SocketCloses(s))
      modifies this
      ensures Valid() && Contents() == OnClose(old(Contents()), s)
    {
      CloseKeepsInv(Contents(), s);
      sockets := sockets[s := sockets[s].(ready := Closed, closeFired := true)];
      if sockets[s].reconnecting {
        StopHeartbeatTimer();
        if !intentionallyClosed {
          ScheduleReconnect();
        }
      }
    }

    method HeartbeatTick(ghost i: nat)
      requires Valid() && Possible(Contents(), Tick(i))
      modifies this
      ensures Valid() && Contents() == OnTick(old(Contents()))
    {
      TickKeepsInv(Contents(), i);
      if ws.Some? && sockets[ws.value].ready == Open {
        missedHeartbeats := missedHeartbeats + 1;
        if missedHeartbeats >= MAX_MISSED {
          CloseSocket(ws.value);
          return;
        }
        pings := pings + 1;
      }
    }
  }
}

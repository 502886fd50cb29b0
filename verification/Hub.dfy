/** The WebSocket hub: one goroutine owns the clients and writes each broadcast to all of them. */
module Hub {
  import opened Models
  import opened Sums

  type Client = nat

  const BROADCAST_SIZE: nat := 500

  /** `Writing` is the loop over the copy of the clients; `Blocked` is that loop waiting to send the client whose
      write failed on `unregister`. */
  datatype Phase =
    | Selecting
    | Writing(message: Alert, todo: set<Client>)
    | Blocked(message: Alert, failed: Client, todo: set<Client>)
    | Returned

  /** `offered` = `accepted` and `dropped` interleaved, `log` (the broadcasts taken from the channel), `received`,
      `joinedAt`, `leftAt` (as positions in the log) and `closed` record the history. */
  datatype State = State(
    clients: set<Client>,
    broadcast: seq<Alert>,
    phase: Phase,
    ctxDone: bool,
    offered: seq<Alert>,
    accepted: seq<Alert>,
    dropped: seq<Alert>,
    log: seq<Alert>,
    received: map<Client, seq<Alert>>,
    joinedAt: map<Client, nat>,
    leftAt: map<Client, nat>,
    closed: seq<Client>)

  datatype Step =
    | Register(client: Client)
    | Unregister(client: Client)
    | Offer(message: Alert)       // Broadcast, from any goroutine
    | Take
    | WriteOk(client: Client)
    | WriteFails(client: Client)
    | EndWrite
    | Resume                      // the blocked send on `unregister` finds a receiver
    | Cancel
    | Leave

  function NewHub(): State {
    State({}, [], Selecting, false, [], [], [], [], map[], map[], map[], [])
  }

  /** `unregister` is unbuffered and only the loop's own select receives from it. */
  predicate UnregisterReceiverReady(s: State) {
    s.phase.Selecting?
  }

  /** A connection is registered once, when it is opened. */
  predicate Enabled(s: State, step: Step) {
    match step
    case Register(c) => s.phase.Selecting? && c !in s.joinedAt
    case Unregister(c) => UnregisterReceiverReady(s)
    case Offer(_) => true
    case Take => s.phase.Selecting? && s.broadcast != []
    case WriteOk(c) => s.phase.Writing? && c in s.phase.todo && c in s.received
    case WriteFails(c) => s.phase.Writing? && c in s.phase.todo
    case EndWrite => s.phase.Writing? && s.phase.todo == {}
    case Resume => s.phase.Blocked? && UnregisterReceiverReady(s)
    case Cancel => true
    case Leave => s.phase.Selecting? && s.ctxDone
  }

  function AfterUnregister(s: State, c: Client): State {
    if c in s.clients then
      s.(clients := s.clients - {c}, leftAt := s.leftAt[c := |s.log|], closed := s.closed + [c])
    else s
  }

  function AfterOffer(s: State, message: Alert): State {
    if |s.broadcast| < BROADCAST_SIZE then
      s.(offered := s.offered + [message], accepted := s.accepted + [message], broadcast := s.broadcast + [message])
    else s.(offered := s.offered + [message], dropped := s.dropped + [message])
  }

  function Apply(s: State, step: Step): State
    requires Enabled(s, step)
  {
    match step
    case Register(c) =>
      s.(clients := s.clients + {c}, received := s.received[c := []], joinedAt := s.joinedAt[c := |s.log|])
    case Unregister(c) => AfterUnregister(s, c)
    case Offer(message) => AfterOffer(s, message)
    case Take =>
      s.(broadcast := s.broadcast[1..], log := s.log + [s.broadcast[0]],
         phase := Writing(s.broadcast[0], s.clients))
    case WriteOk(c) =>
      s.(received := s.received[c := s.received[c] + [s.phase.message]],
         phase := Writing(s.phase.message, s.phase.todo - {c}))
    case WriteFails(c) => s.(phase := Blocked(s.phase.message, c, s.phase.todo - {c}))
    case EndWrite => s.(phase := Selecting)
    case Resume => AfterUnregister(s, s.phase.failed).(phase := Writing(s.phase.message, s.phase.todo))
    case Cancel => s.(ctxDone := true)
    case Leave => s.(phase := Returned)
  }

  ghost predicate Run(s: State, steps: seq<Step>, t: State)
    decreases |steps|
  {
    if steps == [] then s == t
    else Enabled(s, steps[0]) && Run(Apply(s, steps[0]), steps[1..], t)
  }

  // ----- Delivery -----

  /** The broadcast in progress has not been written to this client. */
  ghost predicate Awaiting(s: State, c: Client) {
    match s.phase
    case Writing(_, todo) => c in todo
    case Blocked(_, failed, todo) => c == failed || c in todo
    case _ => false
  }

  /** The end of the stretch of the log that the client has received. */
  ghost function ReceivedUpTo(s: State, c: Client): int {
    if c in s.leftAt then s.leftAt[c] else if Awaiting(s, c) then |s.log| - 1 else |s.log|
  }

  ghost predicate Delivered(s: State, c: Client)
    requires c in s.joinedAt && c in s.received
  {
    && s.joinedAt[c] <= ReceivedUpTo(s, c) <= |s.log|
    && s.received[c] == s.log[s.joinedAt[c]..ReceivedUpTo(s, c)]
  }

  /** Every message offered was accepted or dropped, and what was accepted is the log followed by the channel. */
  ghost predicate Accounted(s: State) {
    && |s.broadcast| <= BROADCAST_SIZE
    && s.accepted == s.log + s.broadcast
    && multiset(s.offered) == multiset(s.accepted) + multiset(s.dropped)
  }

  ghost predicate Bookkeeping(s: State) {
    && s.received.Keys == s.joinedAt.Keys
    && s.clients + s.leftAt.Keys == s.joinedAt.Keys
    && s.clients !! s.leftAt.Keys
    && (forall c :: Awaiting(s, c) ==> c in s.clients)
    && (s.phase.Writing? || s.phase.Blocked? ==> s.log != [] && s.phase.message == s.log[|s.log| - 1])
  }

  /** Each connection the hub has closed is closed once. */
  ghost predicate ClosedOnce(s: State) {
    && (forall c :: c in s.closed <==> c in s.leftAt)
    && (forall i, j :: 0 <= i < j < |s.closed| ==> s.closed[i] != s.closed[j])
  }

  ghost predicate Inv(s: State) {
    && Accounted(s)
    && Bookkeeping(s)
    && ClosedOnce(s)
    && forall c :: c in s.joinedAt ==> Delivered(s, c)
  }

  lemma {:induction false} OfferKeepsAccounts(s: State, message: Alert)
    requires Accounted(s)
    ensures Accounted(AfterOffer(s, message))
  {
    assert s.accepted + [message] == s.log + (s.broadcast + [message]);
    MultisetAppend(s.offered, message);
    MultisetAppend(s.accepted, message);
    MultisetAppend(s.dropped, message);
    AddToPart(multiset(s.offered), multiset(s.accepted), multiset(s.dropped), multiset{message});
  }

  lemma {:induction false} StepKeepsAccounts(s: State, step: Step)
    requires Accounted(s) && Enabled(s, step)
    ensures Accounted(Apply(s, step))
  {
    match step {
      case Offer(message) => OfferKeepsAccounts(s, message);
      case Take => assert s.log + s.broadcast == s.log + [s.broadcast[0]] + s.broadcast[1..];
      case _ =>
    }
  }

  lemma {:induction false} StepKeepsBooks(s: State, step: Step)
    requires Bookkeeping(s) && Enabled(s, step)
    ensures Bookkeeping(Apply(s, step))
  {
  }

  lemma {:induction false} StepKeepsClosedOnce(s: State, step: Step)
    requires Bookkeeping(s) && ClosedOnce(s) && Enabled(s, step)
    ensures ClosedOnce(Apply(s, step))
  {
  }

  lemma {:induction false} TakeDelivers(s: State, c: Client)
    requires Bookkeeping(s) && Enabled(s, Take) && c in s.joinedAt && c in s.received && Delivered(s, c)
    ensures Delivered(Apply(s, Take), c)
  {
    var t := Apply(s, Take);
    assert t.log[..|s.log|] == s.log;
    assert ReceivedUpTo(t, c) == ReceivedUpTo(s, c);
  }

  lemma {:induction false} WriteDelivers(s: State, step: Step, c: Client)
    requires Bookkeeping(s) && Enabled(s, step) && step.WriteOk?
    requires c in s.joinedAt && c in s.received && Delivered(s, c)
    ensures Delivered(Apply(s, step), c)
  {
    if step.client == c {
      var n := |s.log|;
      assert Awaiting(s, c);
      assert s.log[s.joinedAt[c]..n] == s.log[s.joinedAt[c]..n - 1] + [s.log[n - 1]];
    }
  }

  lemma {:induction false} StillDelivered(s: State, t: State, c: Client)
    requires c in s.joinedAt && c in s.received && Delivered(s, c)
    requires c in t.joinedAt && c in t.received
    requires t.log == s.log && t.joinedAt[c] == s.joinedAt[c] && t.received[c] == s.received[c]
    requires ReceivedUpTo(t, c) == ReceivedUpTo(s, c)
    ensures Delivered(t, c)
  {
  }

  lemma {:induction false} StepDelivers(s: State, step: Step, c: Client)
    requires Bookkeeping(s) && Enabled(s, step) && c in s.joinedAt && c in s.received && Delivered(s, c)
    ensures var t := Apply(s, step); c in t.joinedAt && c in t.received && Delivered(t, c)
  {
    hide Delivered;
    match step {
      case Take => TakeDelivers(s, c);
      case WriteOk(_) => WriteDelivers(s, step, c);
      case _ => StillDelivered(s, Apply(s, step), c);
    }
  }

  lemma {:induction false} RegisteredClientStarts(s: State, c: Client)
    requires Bookkeeping(s) && Enabled(s, Register(c))
    ensures Delivered(Apply(s, Register(c)), c)
  {
  }

  lemma {:induction false} StepKeepsInv(s: State, step: Step)
    requires Inv(s) && Enabled(s, step)
    ensures Inv(Apply(s, step))
  {
    StepKeepsAccounts(s, step);
    StepKeepsBooks(s, step);
    StepKeepsClosedOnce(s, step);
    hide Accounted, Delivered, ClosedOnce;
    forall c | c in Apply(s, step).joinedAt ensures Delivered(Apply(s, step), c) {
      if c in s.joinedAt {
        StepDelivers(s, step, c);
      } else {
        RegisteredClientStarts(s, c);
      }
    }
  }

  lemma {:induction false} ClientsHaveConnections(s: State)
    requires Inv(s)
    ensures forall c :: c in s.clients ==> c in s.received
  {
  }

  lemma {:induction false} RunKeepsInv(s: State, steps: seq<Step>, t: State)
    requires Inv(s) && Run(s, steps, t)
    ensures Inv(t)
    decreases |steps|
  {
    if steps != [] {
      StepKeepsInv(s, steps[0]);
      RunKeepsInv(Apply(s, steps[0]), steps[1..], t);
    }
  }

  /** On every run, failed writes included, what a client has received is the contiguous stretch of the
      broadcast log from its registration to its departure, or to now less the broadcast it still awaits. */
  lemma {:induction false} EveryClientReceivesItsStretch(steps: seq<Step>, t: State, c: Client)
    requires Run(NewHub(), steps, t) && c in t.joinedAt
    ensures c in t.received && Delivered(t, c)
    ensures c in t.clients && t.phase.Selecting? ==> t.received[c] == t.log[t.joinedAt[c]..]
    ensures ClosedOnce(t) && (c in t.closed <==> c !in t.clients)
  {
    RunKeepsInv(NewHub(), steps, t);
  }

  /** On every run each message offered to the hub was dropped, waits in the channel or is in the log, in the order
      in which the channel accepted them; and the channel never holds more than 500. */
  lemma {:induction false} EveryBroadcastIsAccounted(steps: seq<Step>, t: State)
    requires Run(NewHub(), steps, t)
    ensures t.accepted == t.log + t.broadcast && |t.broadcast| <= 500
    ensures multiset(t.offered) == multiset(t.accepted) + multiset(t.dropped)
  {
    RunKeepsInv(NewHub(), steps, t);
  }

  /** On every run a message that is offered is dropped if and only if 500 wait; otherwise it waits behind them. */
  lemma {:induction false} OfferDropsIffFull(steps: seq<Step>, s: State, message: Alert)
    requires Run(NewHub(), steps, s)
    ensures var t := Apply(s, Offer(message));
            if |s.broadcast| == 500
            then t.broadcast == s.broadcast && t.dropped == s.dropped + [message]
            else t.broadcast == s.broadcast + [message] && t.dropped == s.dropped
  {
    RunKeepsInv(NewHub(), steps, s);
  }

  /** The loop returns only when the context is done. */
  lemma {:induction false} ReturnsOnlyWhenCancelled(s: State, steps: seq<Step>, t: State)
    requires Run(s, steps, t) && (s.phase.Returned? ==> s.ctxDone)
    ensures t.phase.Returned? ==> t.ctxDone
    decreases |steps|
  {
    if steps != [] {
      ReturnsOnlyWhenCancelled(Apply(s, steps[0]), steps[1..], t);
    }
  }

  // ----- After a failed write -----

  /** Once blocked, the loop stays blocked: no client joins or leaves, nothing is delivered, not even a
      cancellation gets through, and the broadcast channel only fills up. */
  lemma {:induction false} BlockedForGood(s: State, steps: seq<Step>, t: State)
    requires s.phase.Blocked? && |s.broadcast| <= BROADCAST_SIZE && Run(s, steps, t)
    ensures (t.phase, t.clients, t.received, t.log, t.joinedAt, t.leftAt, t.closed) ==
            (s.phase, s.clients, s.received, s.log, s.joinedAt, s.leftAt, s.closed)
    ensures s.broadcast <= t.broadcast && |t.broadcast| <= BROADCAST_SIZE
    ensures forall i :: 0 <= i < |steps| ==> steps[i].Offer? || steps[i].Cancel?
    decreases |steps|
  {
    if steps != [] {
      BlockedForGood(Apply(s, steps[0]), steps[1..], t);
      assert forall i :: 1 <= i < |steps| ==> steps[i] == steps[1..][i - 1];
    }
  }

  /** The loop ends up blocked on exactly the runs on which some broadcast write fails. */
  lemma {:induction false} BlockedIffAWriteFailed(s: State, steps: seq<Step>, t: State)
    requires !s.phase.Blocked? && |s.broadcast| <= BROADCAST_SIZE && Run(s, steps, t)
    ensures t.phase.Blocked? <==> exists i :: 0 <= i < |steps| && steps[i].WriteFails?
    decreases |steps|
  {
    if steps != [] {
      var next := Apply(s, steps[0]);
      assert forall i :: 1 <= i < |steps| ==> steps[i] == steps[1..][i - 1];
      if steps[0].WriteFails? {
        BlockedForGood(next, steps[1..], t);
      } else {
        BlockedIffAWriteFailed(next, steps[1..], t);
        if t.phase.Blocked? {
          var i :| 0 <= i < |steps[1..]| && steps[1..][i].WriteFails?;
          assert steps[i + 1].WriteFails?;
        }
      }
    }
  }

  /** It happens: one client, one broadcast, and a write that fails. */
  lemma {:induction false} OneFailedWriteBlocks(client: Client, message: Alert) returns (steps: seq<Step>, t: State)
    ensures Run(NewHub(), steps, t)
    ensures t.phase == Blocked(message, client, {}) && t.clients == {client}
    ensures client in t.received && t.received[client] == []
  {
    steps := [Register(client), Offer(message), Take, WriteFails(client)];
    var s1 := Apply(NewHub(), steps[0]);
    var s2 := Apply(s1, steps[1]);
    var s3 := Apply(s2, steps[2]);
    assert s3.phase == Writing(message, {client});
    t := Apply(s3, steps[3]);
    assert Run(t, [], t);
    assert Run(s3, [WriteFails(client)], t);
    assert [Take, WriteFails(client)][1..] == [WriteFails(client)];
    assert Run(s2, [Take, WriteFails(client)], t);
    assert [Offer(message), Take, WriteFails(client)][1..] == [Take, WriteFails(client)];
    assert Run(s1, [Offer(message), Take, WriteFails(client)], t);
    assert steps[1..] == [Offer(message), Take, WriteFails(client)];
  }

  // ----- The hub object -----

  class Hub {
    var clients: set<Client>
    var broadcast: seq<Alert>
    /** What has been written to each connection. */
    var received: map<Client, seq<Alert>>
    ghost var model: State

    ghost predicate Valid()
      reads this
    {
      && Inv(model)
      && model.clients == clients && model.broadcast == broadcast && model.received == received
    }

    constructor ()
      ensures Valid() && model == NewHub()
    {
      clients, broadcast, received := {}, [], map[];
      model := NewHub();
    }

    /** OnAlert and Broadcast. */
    method Broadcast(message: Alert)
      requires Valid()
      modifies this
      ensures Valid() && model == AfterOffer(old(model), message)
      ensures broadcast == if |old(broadcast)| < BROADCAST_SIZE then old(broadcast) + [message] else old(broadcast)
    {
      StepKeepsInv(model, Offer(message));
      if |broadcast| < BROADCAST_SIZE {
        broadcast := broadcast + [message];
      }
      model := AfterOffer(model, message);
    }

    method RunRegister(c: Client)
      requires Valid() && Enabled(model, Register(c))
      modifies this
      ensures Valid() && model == Apply(old(model), Register(c))
      ensures clients == old(clients) + {c} && received == old(received)[c := []]
    {
      StepKeepsInv(model, Register(c));
      clients := clients + {c};
      received := received[c := []];
      model := Apply(model, Register(c));
    }

    method RunUnregister(c: Client) returns (closeConnection: bool)
      requires Valid() && Enabled(model, Unregister(c))
      modifies this
      ensures Valid() && model == AfterUnregister(old(model), c)
      ensures closeConnection == (c in old(clients)) && clients == old(clients) - {c}
    {
      StepKeepsInv(model, Unregister(c));
      closeConnection := false;
      if c in clients {
        clients := clients - {c};
        closeConnection := true;
      }
      model := AfterUnregister(model, c);
    }

    /** One broadcast: take the oldest message and write it to a copy of the clients, in any order. `failing` are
        the connections on which a write fails. */
    method RunBroadcast(failing: set<Client>) returns (blocked: bool)
      requires Valid() && model.phase.Selecting? && broadcast != []
      modifies this
      ensures Valid()
      ensures broadcast == old(broadcast)[1..] && clients == old(clients) && received.Keys == old(received.Keys)
      ensures model.log == old(model.log) + [old(broadcast)[0]]
      ensures blocked <==> exists c :: c in clients && c in failing
      ensures if blocked then model.phase.Blocked? else model.phase.Selecting?
      ensures !blocked ==> forall c :: c in clients ==> received[c] == old(received)[c] + [old(broadcast)[0]]
      ensures forall c :: c in received && c !in clients ==> received[c] == old(received)[c]
      ensures forall c :: c in received && c in failing ==> received[c] == old(received)[c]
    {
      hide Inv;
      ClientsHaveConnections(model);
      StepKeepsInv(model, Take);
      var message := broadcast[0];
      broadcast := broadcast[1..];
      model := Apply(model, Take);
      var todo := clients;
      while todo != {}
        invariant Valid() && todo <= clients && model.phase == Writing(message, todo)
        invariant broadcast == old(broadcast)[1..] && clients == old(clients)
        invariant received.Keys == old(received.Keys) && model.log == old(model.log) + [message]
        invariant forall c :: c in clients && c !in todo ==>
                    c !in failing && c in received && received[c] == old(received)[c] + [message]
        invariant forall c :: c in received && (c in todo || c !in clients) ==> received[c] == old(received)[c]
        decreases todo
      {
        var c :| c in todo;
        ClientsHaveConnections(model);
        if c in failing {
          StepKeepsInv(model, WriteFails(c));
          model := Apply(model, WriteFails(c));
          return true;
        }
        StepKeepsInv(model, WriteOk(c));
        received := received[c := received[c] + [message]];
        model := Apply(model, WriteOk(c));
        todo := todo - {c};
      }
      StepKeepsInv(model, EndWrite);
      model := Apply(model, EndWrite);
      blocked := false;
    }
  }
}

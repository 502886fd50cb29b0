/** The event bus: publishers drop when the buffer is full, one dispatcher starts a notification per observer. */
module EventBus {
  import opened Models
  import opened Sums

  /** `Notifying` is the loop over the `count` observers that were subscribed when it began. */
  datatype Dispatcher = Selecting | Notifying(next: nat, count: nat) | Gone

  /** `published` = `accepted` and `dropped` interleaved; `notified[o]` are the events with which `OnAlert` was
      started for observer o, and `since[o]` is the number of dispatched events when o subscribed. */
  datatype Bus = Bus(
    capacity: nat,
    buffer: seq<Alert>,
    stopChClosed: bool,
    ctxDone: bool,
    dispatcher: Dispatcher,
    published: seq<Alert>,
    accepted: seq<Alert>,
    dropped: seq<Alert>,
    dispatched: seq<Alert>,
    notified: seq<seq<Alert>>,
    since: seq<nat>)

  const BUFFER_SIZE: nat := 200

  datatype Step = Subscribe | Publish(event: Alert) | Receive | Notify | EndNotify | Leave | CloseStopCh | Cancel

  function NewBus(): Bus {
    Bus(BUFFER_SIZE, [], false, false, Selecting, [], [], [], [], [], [])
  }

  predicate Enabled(b: Bus, step: Step) {
    match step
    case Subscribe => true
    case Publish(_) => true
    case Receive => b.dispatcher.Selecting? && b.buffer != []
    case Notify => b.dispatcher.Notifying? && b.dispatcher.next < b.dispatcher.count <= |b.notified|
                   && b.dispatched != []
    case EndNotify => b.dispatcher.Notifying? && b.dispatcher.next == b.dispatcher.count
    case Leave => b.dispatcher.Selecting? && (b.stopChClosed || b.ctxDone)
    case CloseStopCh => !b.stopChClosed
    case Cancel => true
  }

  function AfterPublish(b: Bus, event: Alert): Bus {
    if |b.buffer| < b.capacity then
      b.(published := b.published + [event], accepted := b.accepted + [event], buffer := b.buffer + [event])
    else b.(published := b.published + [event], dropped := b.dropped + [event])
  }

  function AfterNotify(b: Bus): Bus
    requires Enabled(b, Notify)
  {
    var o := b.dispatcher.next;
    b.(notified := b.notified[o := b.notified[o] + [b.dispatched[|b.dispatched| - 1]]],
       dispatcher := Notifying(o + 1, b.dispatcher.count))
  }

  function Apply(b: Bus, step: Step): Bus
    requires Enabled(b, step)
  {
    match step
    case Subscribe => b.(notified := b.notified + [[]], since := b.since + [|b.dispatched|])
    case Publish(event) => AfterPublish(b, event)
    case Receive =>
      b.(buffer := b.buffer[1..], dispatched := b.dispatched + [b.buffer[0]],
         dispatcher := Notifying(0, |b.notified|))
    case Notify => AfterNotify(b)
    case EndNotify => b.(dispatcher := Selecting)
    case Leave => b.(dispatcher := Gone)
    case CloseStopCh => b.(stopChClosed := true)
    case Cancel => b.(ctxDone := true)
  }

  ghost predicate Run(b: Bus, steps: seq<Step>, c: Bus)
    decreases |steps|
  {
    if steps == [] then b == c
    else Enabled(b, steps[0]) && Run(Apply(b, steps[0]), steps[1..], c)
  }

  // ----- What every run keeps -----

  /** How many of the dispatched events observer o has been, or never will be, notified of. */
  ghost function Reached(b: Bus, o: nat): nat {
    if b.dispatcher.Notifying? && b.dispatcher.next <= o < b.dispatcher.count && b.dispatched != []
    then |b.dispatched| - 1 else |b.dispatched|
  }

  ghost predicate Accounted(b: Bus) {
    && |b.buffer| <= b.capacity
    && b.accepted == b.dispatched + b.buffer
    && multiset(b.published) == multiset(b.accepted) + multiset(b.dropped)
  }

  ghost predicate FannedOut(b: Bus) {
    && |b.since| == |b.notified|
    && (b.dispatcher.Notifying? ==>
          b.dispatched != [] && b.dispatcher.next <= b.dispatcher.count <= |b.notified|)
    && forall o :: 0 <= o < |b.notified| ==>
         b.since[o] <= Reached(b, o) && b.notified[o] == b.dispatched[b.since[o]..Reached(b, o)]
  }

  ghost predicate Inv(b: Bus) {
    Accounted(b) && FannedOut(b)
  }

  lemma {:induction false} NewBusInv()
    ensures Inv(NewBus())
  {
  }

  lemma {:induction false} PublishKeepsAccounts(b: Bus, event: Alert)
    requires Accounted(b)
    ensures Accounted(AfterPublish(b, event))
  {
    assert b.accepted + [event] == b.dispatched + (b.buffer + [event]);
    MultisetAppend(b.published, event);
    MultisetAppend(b.accepted, event);
    MultisetAppend(b.dropped, event);
    AddToPart(multiset(b.published), multiset(b.accepted), multiset(b.dropped), multiset{event});
  }

  lemma {:induction false} ReceiveKeepsInv(b: Bus)
    requires Inv(b) && Enabled(b, Receive)
    ensures Inv(Apply(b, Receive))
  {
    var event := b.buffer[0];
    assert b.dispatched + b.buffer == b.dispatched + [event] + b.buffer[1..];
    var c := Apply(b, Receive);
    forall o | 0 <= o < |c.notified|
      ensures c.since[o] <= Reached(c, o) && c.notified[o] == c.dispatched[c.since[o]..Reached(c, o)]
    {
      assert c.dispatched[..|b.dispatched|] == b.dispatched;
      assert b.notified[o] == b.dispatched[b.since[o]..];
    }
  }

  lemma {:induction false} NotifyKeepsFanOut(b: Bus)
    requires FannedOut(b) && Enabled(b, Notify)
    ensures FannedOut(AfterNotify(b))
  {
    var n := |b.dispatched|;
    var o := b.dispatcher.next;
    assert b.dispatched[b.since[o]..n] == b.dispatched[b.since[o]..n - 1] + [b.dispatched[n - 1]];
  }

  lemma {:induction false} SubscribeKeepsFanOut(b: Bus)
    requires FannedOut(b)
    ensures FannedOut(Apply(b, Subscribe))
  {
    assert b.dispatched[|b.dispatched|..] == [];
  }

  lemma {:induction false} FanOutFrame(b: Bus, c: Bus)
    requires FannedOut(b)
    requires (c.dispatched, c.notified, c.since) == (b.dispatched, b.notified, b.since)
    requires c.dispatcher == b.dispatcher
             || (!c.dispatcher.Notifying?
                 && (b.dispatcher.Notifying? ==> b.dispatcher.next == b.dispatcher.count))
    ensures FannedOut(c)
  {
    assert forall o: nat :: Reached(c, o) == Reached(b, o);
  }

  lemma {:induction false} StepKeepsInv(b: Bus, step: Step)
    requires Inv(b) && Enabled(b, step)
    ensures Inv(Apply(b, step))
  {
    hide FannedOut;
    match step {
      case Publish(event) =>
        PublishKeepsAccounts(b, event);
        FanOutFrame(b, AfterPublish(b, event));
      case Receive => ReceiveKeepsInv(b);
      case Notify => NotifyKeepsFanOut(b);
      case Subscribe => SubscribeKeepsFanOut(b);
      case _ => FanOutFrame(b, Apply(b, step));
    }
  }

  /** On every run: what was accepted is what was dispatched followed by the buffer, in order; every publish was
      accepted or dropped; and each observer was notified, once and in order, of every event dispatched
      since it subscribed. */
  lemma {:induction false} RunKeepsInv(b: Bus, steps: seq<Step>, c: Bus)
    requires Inv(b) && Run(b, steps, c)
    ensures Inv(c)
    decreases |steps|
  {
    if steps != [] {
      StepKeepsInv(b, steps[0]);
      RunKeepsInv(Apply(b, steps[0]), steps[1..], c);
    }
  }

  /** The same from the start, spelled out: an observer lags behind the dispatched events only while the dispatcher
      is on its way to it. */
  lemma {:induction false} EveryRunIsAccounted(steps: seq<Step>, c: Bus)
    requires Run(NewBus(), steps, c)
    ensures c.accepted == c.dispatched + c.buffer
    ensures multiset(c.published) == multiset(c.accepted) + multiset(c.dropped)
    ensures |c.since| == |c.notified|
    ensures forall o :: 0 <= o < |c.notified| ==>
              var end := if c.dispatcher.Notifying? && c.dispatcher.next <= o < c.dispatcher.count
                         then |c.dispatched| - 1 else |c.dispatched|;
              0 <= c.since[o] <= end <= |c.dispatched| && c.notified[o] == c.dispatched[c.since[o]..end]
  {
    NewBusInv();
    RunKeepsInv(NewBus(), steps, c);
    forall o: nat ensures Reached(c, o) == if c.dispatcher.Notifying? && c.dispatcher.next <= o < c.dispatcher.count
                                           then |c.dispatched| - 1 else |c.dispatched| {
    }
  }

  /** Between two events, all observers that subscribed before the first event have seen the same sequence. */
  lemma {:induction false} ObserversAgree(steps: seq<Step>, c: Bus, o: nat, q: nat)
    requires Run(NewBus(), steps, c) && c.dispatcher.Selecting?
    requires o < |c.notified| && q < |c.notified| && |c.since| == |c.notified|
    requires c.since[o] == 0 && c.since[q] == 0
    ensures c.notified[o] == c.notified[q] == c.dispatched
  {
    NewBusInv();
    RunKeepsInv(NewBus(), steps, c);
    assert c.dispatched[0..|c.dispatched|] == c.dispatched;
  }

  /** The bus object; its fields are the buffered channel, the observers and the notifications started so far. */
  class EventBus {
    var eventChan: seq<Alert>
    var started: seq<seq<Alert>>
    ghost var model: Bus

    ghost predicate Valid()
      reads this
    {
      Inv(model) && model.buffer == eventChan && model.notified == started && model.capacity == BUFFER_SIZE
    }

    constructor ()
      ensures Valid() && model == NewBus()
    {
      eventChan, started := [], [];
      model := NewBus();
    }

    method Subscribe() returns (observer: nat)
      requires Valid()
      modifies this
      ensures Valid() && model == Apply(old(model), Step.Subscribe)
      ensures observer == |old(started)| && started == old(started) + [[]]
    {
      StepKeepsInv(model, Step.Subscribe);
      observer := |started|;
      started := started + [[]];
      model := Apply(model, Step.Subscribe);
    }

    method Publish(event: Alert)
      requires Valid()
      modifies this
      ensures Valid() && model == AfterPublish(old(model), event)
      ensures eventChan == if |old(eventChan)| < BUFFER_SIZE then old(eventChan) + [event] else old(eventChan)
    {
      StepKeepsInv(model, Step.Publish(event));
      if |eventChan| < BUFFER_SIZE {
        eventChan := eventChan + [event];
      }
      model := AfterPublish(model, event);
    }

    /** One turn of the dispatcher: take the oldest event and start one notification per observer. */
    method DispatchNext()
      requires Valid() && model.dispatcher.Selecting? && eventChan != []
      modifies this
      ensures Valid() && model.dispatcher.Selecting?
      ensures eventChan == old(eventChan)[1..]
      ensures |started| == |old(started)|
      ensures forall o :: 0 <= o < |started| ==> started[o] == old(started)[o] + [old(eventChan)[0]]
      ensures model.dispatched == old(model).dispatched + [old(eventChan)[0]]
      ensures (model.published, model.accepted, model.dropped) ==
              old((model.published, model.accepted, model.dropped))
    {
      hide Accounted, FannedOut;
      ReceiveKeepsInv(model);
      var event := eventChan[0];
      eventChan := eventChan[1..];
      model := Apply(model, Receive);
      for o := 0 to |started|
        invariant Valid() && model.dispatcher == Notifying(o, |started|)
        invariant |started| == |old(started)| && eventChan == old(eventChan)[1..]
        invariant model.dispatched == old(model).dispatched + [event]
        invariant forall k :: 0 <= k < o ==> started[k] == old(started)[k] + [event]
        invariant forall k :: o <= k < |started| ==> started[k] == old(started)[k]
        invariant (model.published, model.accepted, model.dropped) ==
                  old((model.published, model.accepted, model.dropped))
      {
        StepKeepsInv(model, Notify);
        started := started[o := started[o] + [event]];
        model := AfterNotify(model);
      }
      StepKeepsInv(model, EndNotify);
      model := Apply(model, EndNotify);
    }
  }
}

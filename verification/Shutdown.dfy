/** The main results about the application: safety on every run, exact accounting, and a shutdown that cannot
    get stuck. */
module Shutdown {
  import opened Sums
  import opened Models
  import opened Collectors
  import opened Tasks
  import opened Application
  import opened Pipeline
  import Pool = WorkerPool
  import Bus = EventBus

  /** Some schedule leads from the start of the application to this state. */
  ghost predicate Reachable(s: App) {
    exists config, observers, steps :: Run(Initial(config, observers), steps, s)
  }

  lemma {:induction false} ReachableInv(s: App)
    requires Reachable(s)
    ensures Inv(s)
  {
    var config, observers, steps :| Run(Initial(config, observers), steps, s);
    InitialInv(config, observers);
    RunKeepsInv(Initial(config, observers), steps, s);
  }

  // ----- Safety -----

  /** No schedule, shutdown included, panics: no send meets a closed queue and no channel is closed twice. */
  lemma {:induction false} NeverCrashes(s: App)
    requires Reachable(s)
    ensures !s.crashed && !s.pool.panicked
    ensures forall c :: Enabled(s, OfCollector(c, Send)) ==> !s.pool.queueClosed && s.pool.stopPc.NotCalled?
  {
    ReachableInv(s);
    forall c | Enabled(s, OfCollector(c, Send)) ensures !s.pool.queueClosed && s.pool.stopPc.NotCalled? {
      SubmittersPrecedeStop(s, c);
    }
  }

  /** Nothing is created once the database is closed. */
  lemma {:induction false} NoCreateAfterDatabaseClosed(s: App, w: nat)
    requires Reachable(s) && s.dbClosed
    ensures !Enabled(s, OfWorker(w, CreateSucceeds)) && !Enabled(s, OfWorker(w, CreateFails))
    ensures forall v :: 0 <= v < |s.jobs| ==> s.jobs[v].Idle?
  {
    ReachableInv(s);
  }

  /** Whatever any observer was notified of is in the store, and what is about to be sent to one already is. */
  lemma {:induction false} ObserversSeeStoredAlerts(s: App)
    requires Reachable(s)
    ensures forall o, alert :: 0 <= o < |s.bus.notified| && alert in s.bus.notified[o] ==> alert in s.stored
    ensures Bus.Enabled(s.bus, Bus.Notify) ==> s.bus.dispatched[|s.bus.dispatched| - 1] in s.stored
    ensures forall alert :: alert in s.bus.buffer ==> alert in s.stored
  {
    ReachableInv(s);
    forall alert | alert in s.bus.accepted ensures alert in s.stored {
      assert multiset(s.bus.accepted)[alert] <= multiset(s.bus.published)[alert];
      assert multiset(s.bus.published)[alert] <= multiset(s.stored)[alert];
    }
    assert forall alert :: alert in s.bus.dispatched ==> alert in s.bus.accepted;
    assert forall alert :: alert in s.bus.buffer ==> alert in s.bus.accepted;
  }

  /** Everything in the store was issued by a collector: firing, and critical, high or medium. */
  lemma {:induction false} StoredAlertsAreCollectorAlerts(s: App)
    requires Reachable(s)
    ensures forall alert :: alert in s.stored ==> CollectorAlert(alert)
  {
    ReachableInv(s);
    forall alert | alert in s.stored ensures CollectorAlert(alert) {
      assert multiset(s.stored)[alert] <= multiset(s.issued)[alert];
      assert alert in s.issued;
    }
  }

  /** Each stored alert was issued once, so no two stored alerts share an identifier. */
  lemma {:induction false} StoredAreIssuedOnce(s: App, i: nat, j: nat)
    requires Reachable(s) && i < j < |s.stored|
    ensures s.stored[i].id != s.stored[j].id
  {
    ReachableInv(s);
    var a, b := s.stored[i], s.stored[j];
    NumberedAreDistinct(s.issued, (x: Alert) => x.id, a);
    NumberedAreDistinct(s.issued, (x: Alert) => x.id, b);
    assert multiset(s.stored)[a] <= multiset(s.issued)[a];
    assert multiset(s.stored)[b] <= multiset(s.issued)[b];
    assert a in multiset(s.stored) && b in multiset(s.stored);
    TwiceCountsTwo(s.stored, i, j);
  }

  // ----- Accounting -----

  /** At every moment each task that arrived is in exactly one place: dropped, waiting in a channel or with a
      submitter, rejected, queued, running, or finished; and no buffer exceeds its capacity. */
  lemma {:induction false} EveryTaskIsSomewhere(s: App)
    requires Reachable(s)
    ensures multiset(s.received) ==
            Gather(s.collectors, Held) + multiset(s.rejected) + multiset(s.pool.queue)
            + Gather(s.pool.workers, Pool.InHand) + multiset(s.pool.finished)
    ensures |s.collectors| == 3 && |s.collectors[PODS].chan| <= 500 && |s.collectors[NODES].chan| <= 300
    ensures |s.pool.queue| <= 300 && |s.bus.buffer| <= 200
  {
    ReachableInv(s);
    var p := s.pool;
    MultisetConcat(p.started, p.queue);
    Regroup(multiset(s.received), multiset(p.accepted), multiset(s.rejected), Gather(s.collectors, Held),
            multiset(p.started), multiset(p.queue), multiset(p.finished), Gather(p.workers, Pool.InHand));
    hide Gather, Held, Pool.InHand;
  }

  /** At every moment each alert that was issued is stored, reported as failed, or still to be stored by one worker;
      and each stored alert was dispatched, waits in the bus, was dropped there, or is about to be published. */
  lemma {:induction false} EveryAlertIsSomewhere(s: App)
    requires Reachable(s)
    ensures multiset(s.issued) == multiset(s.stored) + multiset(s.failed) + Gather(s.jobs, Unstored)
    ensures multiset(s.stored) ==
            multiset(s.bus.dispatched) + multiset(s.bus.buffer) + multiset(s.bus.dropped)
            + Gather(s.jobs, Unpublished)
  {
    ReachableInv(s);
    MultisetConcat(s.bus.dispatched, s.bus.buffer);
    hide Gather, Unstored, Unpublished, Reachable, TasksOk, CollectorsOk, MainOk, JobsOk, Pool.Inv, Bus.FannedOut;
  }

  lemma {:induction false} Regroup(received: multiset<Task>, accepted: multiset<Task>, rejected: multiset<Task>,
                                   held: multiset<Task>,
                started: multiset<Task>, queued: multiset<Task>, finished: multiset<Task>, running: multiset<Task>)
    requires received == accepted + rejected + held
    requires accepted == started + queued && started == finished + running
    ensures received == held + rejected + queued + running + finished
  {
  }

  /** No task starts twice, and tasks start in the order in which they were accepted. */
  lemma {:induction false} NoTaskStartsTwice(s: App, i: nat, j: nat)
    requires Reachable(s) && i < j < |s.pool.started|
    ensures s.pool.started[i] != s.pool.started[j]
    ensures s.pool.started <= s.pool.accepted
  {
    ReachableInv(s);
    var task := s.pool.started[i];
    NumberedAreDistinct(s.received, (x: Task) => x.serial, task);
    assert multiset(s.pool.accepted)[task] <= multiset(s.received)[task];
    MultisetConcat(s.pool.started, s.pool.queue);
    assert multiset(s.pool.started)[task] <= 1;
    TwiceCountsTwo(s.pool.started, i, j);
  }

  lemma {:induction false} GoneCollectorsHoldOnlyLosses(s: App)
    requires CollectorsOk(s) && forall c :: 0 <= c < |s.collectors| ==> s.collectors[c].stage.Gone?
    ensures forall c :: 0 <= c < |s.collectors| ==>
              Held(s.collectors[c]) == multiset(s.collectors[c].chan) + multiset(s.collectors[c].dropped)
  {
    forall c | 0 <= c < |s.collectors|
      ensures Held(s.collectors[c]) == multiset(s.collectors[c].chan) + multiset(s.collectors[c].dropped)
    {
      assert CollectorOk(s.collectors[c], s.pool.submitters[c]);
    }
  }

  lemma {:induction false} EverybodyIsGoneAtExit(s: App)
    requires Inv(s) && s.mainPc.Done?
    ensures forall c :: 0 <= c < |s.collectors| ==> Joinable(s.collectors[c])
    ensures Pool.AllExited(s.pool.workers) && s.bus.dispatcher.Gone?
    ensures forall w :: 0 <= w < |s.jobs| ==> s.jobs[w].Idle?
  {
    hide Gather, TasksOk, AlertsOk, Bus.Inv, CollectorOk;
  }

  lemma {:induction false} AlertsAtExit(s: App)
    requires AlertsOk(s) && Bus.Accounted(s.bus) && forall w :: 0 <= w < |s.jobs| ==> s.jobs[w].Idle?
    ensures multiset(s.issued) == multiset(s.stored) + multiset(s.failed)
    ensures multiset(s.stored) ==
            multiset(s.bus.dispatched) + multiset(s.bus.buffer) + multiset(s.bus.dropped)
  {
    GatherEmpty(s.jobs, Unstored);
    GatherEmpty(s.jobs, Unpublished);
    MultisetConcat(s.bus.dispatched, s.bus.buffer);
    hide Gather, Unstored, Unpublished;
  }

  /** When the program ends, every goroutine that was joined is gone, and the only tasks that did not finish
      were dropped at a full channel, left in one, rejected, or left in the queue; every alert issued was
      stored or reported as failed; and every stored alert was dispatched, dropped or left in the buffer. */
  lemma {:induction false} AtExit(s: App)
    requires Reachable(s) && s.mainPc.Done?
    ensures forall c :: 0 <= c < |s.collectors| ==> Joinable(s.collectors[c])
    ensures Pool.AllExited(s.pool.workers) && s.bus.dispatcher.Gone?
    ensures multiset(s.received) ==
            Gather(s.collectors, Held) + multiset(s.rejected) + multiset(s.pool.queue) + multiset(s.pool.finished)
    ensures forall c :: 0 <= c < |s.collectors| ==>
              Held(s.collectors[c]) == multiset(s.collectors[c].chan) + multiset(s.collectors[c].dropped)
    ensures multiset(s.issued) == multiset(s.stored) + multiset(s.failed)
    ensures multiset(s.stored) ==
            multiset(s.bus.dispatched) + multiset(s.bus.buffer) + multiset(s.bus.dropped)
  {
    ReachableInv(s);
    EveryTaskIsSomewhere(s);
    EverybodyIsGoneAtExit(s);
    hide Gather, Held, Reachable, Shape, CollectorOk, MainOk, JobsOk, TasksOk, AlertsOk, Pool.Inv, Bus.FannedOut;
    AlertsAtExit(s);
    GatherEmpty(s.pool.workers, Pool.InHand);
    GoneCollectorsHoldOnlyLosses(s);
  }

  lemma {:induction false} RunsCompose(s: App, first: seq<Step>, t: App, second: seq<Step>, u: App)
    requires Run(s, first, t) && Run(t, second, u)
    ensures Run(s, first + second, u)
    decreases |first|
  {
    hide Apply, Enabled;
    if first == [] {
      assert first + second == second;
    } else {
      RunsCompose(Apply(s, first[0]), first[1..], t, second, u);
      assert (first + second)[1..] == first[1..] + second;
    }
  }

  lemma {:induction false} ReachableRun(s: App, steps: seq<Step>, t: App)
    requires Reachable(s) && Run(s, steps, t)
    ensures Reachable(t)
  {
    var config, observers, before :| Run(Initial(config, observers), before, s);
    hide Initial, Run;
    RunsCompose(Initial(config, observers), before, s, steps, t);
  }

  // ----- The application refines the pool -----

  /** The step of the pool inside a step of the application, if there is one. */
  ghost function PoolTurn(s: App, step: Step): seq<Pool.Step>
    requires Enabled(s, step)
  {
    match step
    case OfCollector(c, act) =>
      if act.StopRefuse? then [Pool.Refuse(c)]
      else if act.StopPass? then [Pool.Admit(c, s.collectors[c].todo[0])]
      else if act.Send? then [Pool.Send(c)]
      else []
    case OfWorker(w, act) =>
      if act.Start? then [Pool.Receive(w)]
      else if act.Finish? then [Pool.Complete(w)]
      else if act.Quit? then [act.why]
      else []
    case OfBus(_) => []
    case OfMain =>
      if s.mainPc.Serving? then [Pool.Cancel]
      else if s.mainPc.StoppingEngine? && !s.pool.stopPc.Returned? then [EngineTurn(s.pool)]
      else []
  }

  ghost function PoolTurns(s: App, steps: seq<Step>, t: App): seq<Pool.Step>
    requires Run(s, steps, t)
    decreases |steps|
  {
    if steps == [] then [] else PoolTurn(s, steps[0]) + PoolTurns(Apply(s, steps[0]), steps[1..], t)
  }

  lemma {:induction false} PoolTakesItsTurn(s: App, step: Step)
    requires Enabled(s, step) && !s.pool.panicked
    ensures Pool.Run(s.pool, PoolTurn(s, step), Apply(s, step).pool)
  {
    var turn := PoolTurn(s, step);
    if turn == [] {
      assert Apply(s, step).pool == s.pool;
    } else {
      assert Pool.Enabled(s.pool, turn[0]) && Apply(s, step).pool == Pool.Apply(s.pool, turn[0]);
      assert turn[1..] == [];
    }
  }

  lemma {:induction false} PoolRunsCompose(p: Pool.Pool, first: seq<Pool.Step>, q: Pool.Pool, second: seq<Pool.Step>,
                                           r: Pool.Pool)
    requires Pool.Run(p, first, q) && Pool.Run(q, second, r)
    ensures Pool.Run(p, first + second, r)
    decreases |first|
  {
    if first == [] {
      assert first + second == second;
    } else {
      PoolRunsCompose(Pool.Apply(p, first[0]), first[1..], q, second, r);
      assert (first + second)[1..] == first[1..] + second;
    }
  }

  /** Every run of the application is, seen from the pool, a run of the pool. */
  lemma {:induction false} RefinesPool(s: App, steps: seq<Step>, t: App)
    requires Inv(s) && Run(s, steps, t)
    ensures Pool.Run(s.pool, PoolTurns(s, steps, t), t.pool)
    decreases |steps|
  {
    if steps != [] {
      var next := Apply(s, steps[0]);
      PoolTakesItsTurn(s, steps[0]);
      StepKeepsInv(s, steps[0]);
      RefinesPool(next, steps[1..], t);
      PoolRunsCompose(s.pool, PoolTurn(s, steps[0]), next.pool, PoolTurns(next, steps[1..], t), t.pool);
    }
  }

  /** From the moment the engine is being stopped, no schedule gives the pool more productive steps than its
      measure allows, however the selects choose. */
  lemma {:induction false} EngineStopIsBounded(s: App, steps: seq<Step>, t: App)
    requires Reachable(s) && s.pool.stopped && Run(s, steps, t)
    ensures Pool.ProductiveSteps(PoolTurns(s, steps, t)) + Pool.Measure(t.pool) <= Pool.Measure(s.pool)
  {
    ReachableInv(s);
    RefinesPool(s, steps, t);
    Pool.StopIsBounded(s.pool, PoolTurns(s, steps, t), t.pool);
  }

  // ----- The shutdown cannot get stuck -----

  /** What a collector's goroutines still have to do before they return, if no more events arrive. A task costs
      its submitter up to three steps, and the two that the pool then owes it are charged here. */
  ghost function CollectorWork(col: Collector): nat {
    (if col.watching then 1 else 0) + 7 * |col.chan| +
    (match col.stage
     case AtSelect => 1
     case BeforeCtxCheck => 6 * |col.todo| + 1
     case BeforeStopCheck => 6 * |col.todo|
     case InSubmit => if col.todo == [] then 0 else 6 * |col.todo| - 1
     case Gone => 0)
  }

  lemma {:induction false} CollectorCanGoOn(s: App, c: nat) returns (act: CollectorAct)
    requires Inv(s) && c < 3 && Told(s.collectors[c], s.pool) && s.pool.ctxDone && !Joinable(s.collectors[c])
    ensures Enabled(s, OfCollector(c, act)) && !act.Watch? && !act.Tick?
    ensures CollectorWork(AfterCollector(s, c, act).collectors[c]) < CollectorWork(s.collectors[c])
  {
    var col := s.collectors[c];
    assert CollectorOk(col, s.pool.submitters[c]);
    SubmittersPrecedeStop(s, c);
    hide Gather;
    if col.watching {
      act := EndWatch;
    } else {
      act := match col.stage
        case AtSelect => End
        case BeforeCtxCheck => CtxRefuse
        case BeforeStopCheck => StopPass
        case _ => Send;
    }
  }

  ghost function JobWork(job: Job): nat {
    match job
    case Idle => 0
    case Storing(todo) => 2 * |todo|
    case Publishing(_, todo) => 2 * |todo| + 1
  }

  ghost function WorkersWork(s: App): nat {
    Sum(s.pool.workers, Pool.WorkerWeight) + Sum(s.jobs, JobWork)
  }

  lemma {:induction false} WorkerCanGoOn(s: App) returns (w: nat, act: WorkerAct)
    requires Inv(s) && s.pool.stopPc.Signalled? && !Pool.AllExited(s.pool.workers)
    ensures Enabled(s, OfWorker(w, act))
    ensures WorkersWork(AfterWorker(s, w, act)) < WorkersWork(s)
    ensures AfterWorker(s, w, act).pool.stopPc.Signalled?
  {
    w :| 0 <= w < |s.pool.workers| && !s.pool.workers[w].Exited?;
    act := match s.jobs[w]
      case Idle => Quit(Pool.QuitOnStop(w))
      case Storing(todo) => if todo == [] then Finish else CreateSucceeds
      case Publishing(_, _) => Publish;
    hide Gather, Sum, Bus.Inv, TasksOk, AlertsOk, MainOk, CollectorsOk, Produces;
    var t := AfterWorker(s, w, act);
    SumUpdate(s.pool.workers, w, t.pool.workers[w], Pool.WorkerWeight);
    SumUpdate(s.jobs, w, t.jobs[w], JobWork);
    assert t.pool.workers == s.pool.workers[w := t.pool.workers[w]];
  }

  ghost function BusWork(dispatcher: Bus.Dispatcher): int {
    match dispatcher
    case Notifying(next, count) => count - next + 2
    case Selecting => 1
    case Gone => 0
  }

  lemma {:induction false} BusCanGoOn(s: App) returns (turn: Bus.Step)
    requires Inv(s) && s.bus.stopChClosed && !s.bus.dispatcher.Gone?
    ensures Enabled(s, OfBus(turn))
    ensures 0 <= BusWork(Bus.Apply(s.bus, turn).dispatcher) < BusWork(s.bus.dispatcher)
  {
    turn := match s.bus.dispatcher
      case Selecting => Bus.Leave
      case Notifying(next, count) => if next < count then Bus.Notify else Bus.EndNotify
      case Gone => Bus.Leave;
    hide Gather, Sum, Pool.Inv;
  }

  ghost function MainLeft(s: App): int {
    match s.mainPc
    case Serving => 30
    case Stopping(k, signalled) => if k < 3 then 20 - 2 * k - (if signalled then 1 else 0) else 20
    case StoppingEngine => 5 + Pool.StopWork(s.pool.stopPc)
    case StoppingBus(signalled) => if signalled then 3 else 4
    case ClosingDatabase => 2
    case Done => 1
  }

  /** The work of the goroutines that `main` is waiting for. */
  ghost function AwaitedWork(s: App): int {
    match s.mainPc
    case Stopping(k, true) => if k < |s.collectors| then CollectorWork(s.collectors[k]) else 0
    case StoppingEngine => WorkersWork(s)
    case StoppingBus(true) => BusWork(s.bus.dispatcher)
    case _ => 0
  }

  /** The steps by which the outside world keeps the program busy: watch events and ticks of the metrics ticker. */
  ghost predicate FromOutside(step: Step) {
    step.OfCollector? && (step.act.Watch? || step.act.Tick?)
  }

  ghost predicate Closer(t: App, s: App) {
    0 <= MainLeft(t) < MainLeft(s)
    || (MainLeft(t) == MainLeft(s) && 0 <= AwaitedWork(t) < AwaitedWork(s))
  }

  lemma {:induction false} MainGoesOn(s: App)
    requires Inv(s) && Enabled(s, OfMain)
    ensures MainLeft(AfterMain(s)) < MainLeft(s)
  {
    hide Pool.Inv, Bus.Inv, TasksOk, AlertsOk, Shape, CollectorsOk, JobsOk, Sum;
  }

  /** In every reachable state before the end, `main` or a goroutine it waits for can take a step that
      brings the end closer: the shutdown has no deadlock. */
  lemma {:induction false} ShutdownIsNeverStuck(s: App) returns (step: Step)
    requires Inv(s) && !s.mainPc.Done?
    ensures Enabled(s, step) && !FromOutside(step) && Closer(Apply(s, step), s)
  {
    if MainEnabled(s) {
      step := OfMain;
      MainGoesOn(s);
    } else if s.mainPc.Stopping? {
      var act := CollectorCanGoOn(s, s.mainPc.k);
      step := OfCollector(s.mainPc.k, act);
    } else if s.mainPc.StoppingEngine? {
      var w, act := WorkerCanGoOn(s);
      step := OfWorker(w, act);
    } else {
      var turn := BusCanGoOn(s);
      step := OfBus(turn);
    }
    hide Pool.Inv, Bus.Inv, TasksOk, AlertsOk, Shape, CollectorsOk, JobsOk, Sum;
  }

  lemma {:induction false} ScheduleToTheEnd(s: App) returns (steps: seq<Step>, t: App)
    requires Inv(s)
    ensures Run(s, steps, t) && t.mainPc.Done?
    decreases MainLeft(s), AwaitedWork(s)
  {
    if s.mainPc.Done? {
      steps, t := [], s;
    } else {
      var step := ShutdownIsNeverStuck(s);
      StepKeepsInv(s, step);
      steps, t := ScheduleToTheEnd(Apply(s, step));
      assert ([step] + steps)[1..] == steps;
      steps := [step] + steps;
    }
  }

  /** From every reachable state the shutdown can still be completed. */
  lemma {:induction false} ShutdownCanComplete(s: App)
    requires Reachable(s)
    ensures exists steps, t :: Run(s, steps, t) && t.mainPc.Done?
  {
    ReachableInv(s);
    var steps, t := ScheduleToTheEnd(s);
  }
}

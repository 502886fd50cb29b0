/** What holds of the running application on every schedule, through the end of its shutdown. */
module Pipeline {
  import opened Sums
  import opened Models
  import opened Collectors
  import opened Tasks
  import opened Application
  import Pool = WorkerPool
  import Bus = EventBus

  // ----- The inductive invariant -----

  ghost predicate Shape(s: App) {
    && |s.collectors| == |s.pool.submitters| == 3
    && |s.jobs| == |s.pool.workers| == WORKERS
    && s.pool.capacity == QUEUE_SIZE
    && s.bus.capacity == Bus.BUFFER_SIZE
    && s.collectors[METRICS].capacity == 0
    && s.collectors[PODS].capacity == POD_CHANNEL_SIZE
    && s.collectors[NODES].capacity == NODE_CHANNEL_SIZE
  }

  ghost predicate CollectorOk(c: Collector, submission: Pool.Submission) {
    && |c.chan| <= c.capacity
    && (c.todo == [] <==> c.stage.AtSelect? || c.stage.Gone?)
    && (submission.Admitted? <==> c.stage.InSubmit?)
    && (c.stage.InSubmit? ==> submission.task == c.todo[0])
  }

  ghost predicate CollectorsOk(s: App) {
    && |s.collectors| == |s.pool.submitters|
    && forall c :: 0 <= c < |s.collectors| ==> CollectorOk(s.collectors[c], s.pool.submitters[c])
  }

  ghost function SignalledCount(pc: MainPc): nat {
    match pc
    case Serving => 0
    case Stopping(k, signalled) => if signalled then k + 1 else k
    case _ => 3
  }

  ghost function JoinedCount(pc: MainPc): nat {
    match pc
    case Serving => 0
    case Stopping(k, _) => k
    case _ => 3
  }

  ghost predicate MainOk(s: App) {
    && |s.collectors| == 3
    && !s.crashed && !s.pool.panicked
    && (s.mainPc.Stopping? ==> s.mainPc.k < 3)
    && (forall c :: 0 <= c < 3 ==> (s.collectors[c].stopChClosed <==> c < SignalledCount(s.mainPc)))
    && (forall c :: 0 <= c < JoinedCount(s.mainPc) <= 3 ==> Joinable(s.collectors[c]))
    && (s.mainPc.Serving? || s.mainPc.Stopping? ==> s.pool.stopPc.NotCalled?)
    && (s.mainPc.StoppingBus? || s.mainPc.ClosingDatabase? || s.mainPc.Done? ==> s.pool.stopPc.Returned?)
    && (s.bus.stopChClosed <==> s.mainPc == StoppingBus(true) || s.mainPc.ClosingDatabase? || s.mainPc.Done?)
    && (s.mainPc.ClosingDatabase? || s.mainPc.Done? ==> s.bus.dispatcher.Gone?)
    && (s.dbClosed <==> s.mainPc.Done?)
    && (s.pool.ctxDone <==> !s.mainPc.Serving?)
    && s.bus.ctxDone == s.pool.ctxDone
  }

  ghost predicate JobsOk(s: App) {
    && |s.jobs| == |s.pool.workers|
    && forall w :: 0 <= w < |s.jobs| ==> (s.pool.workers[w].Executing? <==> !s.jobs[w].Idle?)
  }

  /** The tasks a collector has received and neither handed over nor given up. */
  ghost function Held(c: Collector): multiset<Task> {
    multiset(c.chan) + multiset(c.dropped) + multiset(c.todo)
  }

  ghost predicate TasksOk(s: App) {
    && multiset(s.received) == multiset(s.pool.accepted) + multiset(s.rejected) + Gather(s.collectors, Held)
    && forall i :: 0 <= i < |s.received| ==> s.received[i].serial == i
  }

  ghost function Unstored(j: Job): multiset<Alert> {
    match j
    case Idle => multiset{}
    case Storing(todo) => multiset(todo)
    case Publishing(_, todo) => multiset(todo)
  }

  ghost function Unpublished(j: Job): multiset<Alert> {
    if j.Publishing? then multiset{j.alert} else multiset{}
  }

  ghost predicate AlertsOk(s: App) {
    && multiset(s.issued) == multiset(s.stored) + multiset(s.failed) + Gather(s.jobs, Unstored)
    && multiset(s.stored) == multiset(s.bus.published) + Gather(s.jobs, Unpublished)
    && forall i :: 0 <= i < |s.issued| ==> s.issued[i].id == i && CollectorAlert(s.issued[i])
  }

  ghost predicate Inv(s: App) {
    Shape(s) && Pool.Inv(s.pool) && Bus.Inv(s.bus) && CollectorsOk(s) && MainOk(s) && JobsOk(s)
    && TasksOk(s) && AlertsOk(s)
  }

  // ----- Each part is kept by every step -----

  lemma {:induction false} InitialHistories(config: Config, observers: nat)
    ensures TasksOk(Initial(config, observers)) && AlertsOk(Initial(config, observers))
  {
    var s := Initial(config, observers);
    GatherThree(s.collectors[0], s.collectors[1], s.collectors[2], Held);
    GatherEmpty(s.jobs, Unstored);
    GatherEmpty(s.jobs, Unpublished);
  }

  lemma {:induction false} InitialInv(config: Config, observers: nat)
    ensures Inv(Initial(config, observers))
  {
    InitialHistories(config, observers);
    Pool.InitialInv(WORKERS, QUEUE_SIZE, 3);
    hide TasksOk, AlertsOk, Pool.Inv;
  }

  /** What a step of collector c may change in the pool: its own submission and the queue. */
  ghost predicate SubmitsOnly(c: nat, before: Pool.Pool, after: Pool.Pool) {
    && |after.submitters| == |before.submitters|
    && (forall d :: 0 <= d < |before.submitters| && d != c ==> after.submitters[d] == before.submitters[d])
    && after.workers == before.workers && after.capacity == before.capacity
    && after.stopPc == before.stopPc && after.ctxDone == before.ctxDone
  }

  /** A collector drives the pool only through the steps of `Submit`. */
  lemma {:induction false} CollectorKeepsPool(c: nat, col: Collector, pool: Pool.Pool, serial: nat, act: CollectorAct)
    requires CanAct(c, col, pool, act) && Pool.Inv(pool)
    ensures Pool.Inv(ActOf(c, col, pool, serial, act).pool)
  {
    hide Pool.Inv;
    match act {
      case StopRefuse => Pool.StepKeepsInv(pool, Pool.Refuse(c));
      case StopPass => Pool.StepKeepsInv(pool, Pool.Admit(c, col.todo[0]));
      case Send => Pool.StepKeepsInv(pool, Pool.Send(c));
      case _ =>
    }
  }

  lemma {:induction false} CollectorStaysOk(c: nat, col: Collector, pool: Pool.Pool, serial: nat, act: CollectorAct)
    requires CanAct(c, col, pool, act) && c < |pool.submitters| && CollectorOk(col, pool.submitters[c])
    ensures var e := ActOf(c, col, pool, serial, act);
            && SubmitsOnly(c, pool, e.pool) && CollectorOk(e.col, e.pool.submitters[c])
            && e.col.capacity == col.capacity && e.col.stopChClosed == col.stopChClosed
            && (Joinable(col) ==> Joinable(e.col))
            && ((act.Send? ==> !pool.queueClosed) ==> e.pool.panicked == pool.panicked)
  {
    if act.Send? {
      SendStaysOk(c, col, pool, serial);
      hide ActOf, CanAct;
    }
  }

  lemma {:induction false} SendStaysOk(c: nat, col: Collector, pool: Pool.Pool, serial: nat)
    requires CanAct(c, col, pool, Send) && c < |pool.submitters| && CollectorOk(col, pool.submitters[c])
    ensures var e := ActOf(c, col, pool, serial, Send);
            && SubmitsOnly(c, pool, e.pool) && CollectorOk(e.col, e.pool.submitters[c])
            && e.col.capacity == col.capacity && e.col.stopChClosed == col.stopChClosed
            && !Joinable(col) && (!pool.queueClosed ==> e.pool.panicked == pool.panicked)
  {
  }

  /** A worker changes only its own entry in the pool, and nothing that `main` decides. */
  ghost predicate WorksOnly(w: nat, before: Pool.Pool, after: Pool.Pool) {
    && |after.workers| == |before.workers|
    && (forall v :: 0 <= v < |before.workers| && v != w ==> after.workers[v] == before.workers[v])
    && after.submitters == before.submitters && after.capacity == before.capacity
    && after.stopPc == before.stopPc && after.ctxDone == before.ctxDone
    && after.panicked == before.panicked && after.accepted == before.accepted
  }

  lemma {:induction false} WorkerKeepsPool(config: Config, w: nat, job: Job, pool: Pool.Pool, bus: Bus.Bus,
                                           firstId: nat, act: WorkerAct)
    requires CanWork(config, w, job, pool, act) && Pool.Inv(pool)
    ensures Pool.Inv(WorkOf(config, w, job, pool, bus, firstId, act).pool)
  {
    hide Pool.Inv, Produces;
    match act {
      case Start(_) => Pool.StepKeepsInv(pool, Pool.Receive(w));
      case Finish => Pool.StepKeepsInv(pool, Pool.Complete(w));
      case Quit(why) => Pool.StepKeepsInv(pool, why);
      case _ =>
    }
  }

  lemma {:induction false} WorkerStaysOk(config: Config, w: nat, job: Job, pool: Pool.Pool, bus: Bus.Bus,
                                         firstId: nat, act: WorkerAct)
    requires CanWork(config, w, job, pool, act) && w < |pool.workers|
    requires pool.workers[w].Executing? <==> !job.Idle?
    ensures var e := WorkOf(config, w, job, pool, bus, firstId, act);
            && WorksOnly(w, pool, e.pool) && (e.pool.workers[w].Executing? <==> !e.job.Idle?)
            && e.bus == (if act.Publish? then Bus.AfterPublish(bus, job.alert) else bus)
  {
    hide Produces;
  }

  lemma {:induction false} StepKeepsPool(s: App, step: Step)
    requires Enabled(s, step) && Pool.Inv(s.pool) && MainOk(s)
    ensures Pool.Inv(Apply(s, step).pool)
  {
    hide Pool.Inv, Produces;
    match step {
      case OfCollector(c, act) => CollectorKeepsPool(c, s.collectors[c], s.pool, |s.received|, act);
      case OfWorker(w, act) => WorkerKeepsPool(s.config, w, s.jobs[w], s.pool, s.bus, |s.issued|, act);
      case OfBus(_) =>
      case OfMain =>
        if s.mainPc.Serving? {
          Pool.StepKeepsInv(s.pool, Pool.Cancel);
        } else if s.mainPc.StoppingEngine? && !s.pool.stopPc.Returned? {
          Pool.StepKeepsInv(s.pool, EngineTurn(s.pool));
        }
    }
  }

  lemma {:induction false} StepKeepsBus(s: App, step: Step)
    requires Enabled(s, step) && Bus.Inv(s.bus) && MainOk(s)
    ensures Bus.Inv(Apply(s, step).bus)
  {
    hide Bus.Inv, Produces;
    match step {
      case OfCollector(_, _) =>
      case OfWorker(w, act) =>
        if act.Publish? {
          Bus.StepKeepsInv(s.bus, Bus.Publish(s.jobs[w].alert));
        }
      case OfBus(turn) => Bus.StepKeepsInv(s.bus, turn);
      case OfMain =>
        if s.mainPc.Serving? {
          Bus.StepKeepsInv(s.bus, Bus.Cancel);
        } else if s.mainPc == StoppingBus(false) {
          Bus.StepKeepsInv(s.bus, Bus.CloseStopCh);
        }
    }
  }

  lemma {:induction false} CollectorStepKeepsFrame(s: App, c: nat, act: CollectorAct)
    requires Enabled(s, OfCollector(c, act)) && Shape(s) && CollectorsOk(s)
    ensures var t := AfterCollector(s, c, act); Shape(t) && CollectorsOk(t)
  {
    CollectorStaysOk(c, s.collectors[c], s.pool, |s.received|, act);
    hide ActOf, CanAct, CollectorOk;
  }

  lemma {:induction false} WorkerStepKeepsFrame(s: App, w: nat, act: WorkerAct)
    requires Enabled(s, OfWorker(w, act)) && Shape(s) && CollectorsOk(s) && JobsOk(s)
    ensures var t := AfterWorker(s, w, act); Shape(t) && CollectorsOk(t) && JobsOk(t)
  {
    WorkerStaysOk(s.config, w, s.jobs[w], s.pool, s.bus, |s.issued|, act);
    hide WorkOf, CanWork, CollectorOk;
  }

  lemma {:induction false} EngineTurnFrame(pool: Pool.Pool)
    requires Pool.Enabled(pool, EngineTurn(pool))
    ensures var after := Pool.Apply(pool, EngineTurn(pool));
            && after.submitters == pool.submitters && after.workers == pool.workers
            && after.capacity == pool.capacity && after.accepted == pool.accepted && after.queue == pool.queue
            && after.ctxDone == pool.ctxDone && after.panicked == pool.panicked
  {
  }

  /** What `main` leaves alone. */
  lemma {:induction false} MainFrame(s: App)
    requires Enabled(s, OfMain)
    ensures var t := AfterMain(s);
            && t.pool.submitters == s.pool.submitters && t.pool.workers == s.pool.workers
            && t.pool.capacity == s.pool.capacity && t.pool.accepted == s.pool.accepted
            && t.pool.queue == s.pool.queue
            && t.bus.capacity == s.bus.capacity && t.bus.published == s.bus.published
            && (t.bus.buffer, t.bus.notified, t.bus.dispatcher) == (s.bus.buffer, s.bus.notified, s.bus.dispatcher)
            && (t.config, t.jobs, t.received, t.rejected, t.issued, t.stored, t.failed) ==
               (s.config, s.jobs, s.received, s.rejected, s.issued, s.stored, s.failed)
            && t.collectors == (if s.mainPc.Stopping? && !s.mainPc.signalled
                                then s.collectors[s.mainPc.k := s.collectors[s.mainPc.k].(stopChClosed := true)]
                                else s.collectors)
  {
    if s.mainPc.StoppingEngine? && !s.pool.stopPc.Returned? {
      EngineTurnFrame(s.pool);
    }
    hide Pool.Apply, Pool.Enabled;
  }

  lemma {:induction false} MainStepKeepsFrame(s: App)
    requires Enabled(s, OfMain) && Shape(s) && CollectorsOk(s) && JobsOk(s)
    ensures var t := AfterMain(s); Shape(t) && CollectorsOk(t) && JobsOk(t)
  {
    MainFrame(s);
    hide Enabled, AfterMain;
  }

  /** A submitter that has not returned means that `main` has not come to the engine yet. */
  lemma {:induction false} SubmittersPrecedeStop(s: App, c: nat)
    requires MainOk(s) && Pool.Inv(s.pool) && c < 3 && !Joinable(s.collectors[c])
    ensures s.pool.stopPc.NotCalled? && !s.pool.queueClosed
    ensures s.mainPc.Serving? || (s.mainPc.Stopping? && s.mainPc.k <= c)
  {
  }

  lemma {:induction false} CollectorStepKeepsMain(s: App, c: nat, act: CollectorAct)
    requires Enabled(s, OfCollector(c, act)) && Pool.Inv(s.pool) && CollectorsOk(s) && MainOk(s)
    ensures MainOk(AfterCollector(s, c, act))
  {
    CollectorStaysOk(c, s.collectors[c], s.pool, |s.received|, act);
    if act.Send? {
      SubmittersPrecedeStop(s, c);
    }
    hide ActOf, CanAct, CollectorOk, Pool.Inv;
  }

  lemma {:induction false} WorkerStepKeepsMain(s: App, w: nat, act: WorkerAct)
    requires Enabled(s, OfWorker(w, act)) && JobsOk(s) && MainOk(s)
    ensures MainOk(AfterWorker(s, w, act))
  {
    WorkerStaysOk(s.config, w, s.jobs[w], s.pool, s.bus, |s.issued|, act);
    hide WorkOf, CanWork;
  }

  lemma {:induction false} EngineStepKeepsMain(s: App)
    requires Enabled(s, OfMain) && Pool.Inv(s.pool) && MainOk(s) && s.mainPc.StoppingEngine?
    ensures MainOk(AfterMain(s))
  {
    hide Gather;
    if !s.pool.stopPc.Returned? {
      EngineTurnFrame(s.pool);
    }
  }

  lemma {:induction false} StopStepKeepsMain(s: App)
    requires Enabled(s, OfMain) && MainOk(s) && s.mainPc.Stopping?
    ensures MainOk(AfterMain(s))
  {
    hide Pool.Apply, Pool.Enabled;
  }

  lemma {:induction false} MainStepKeepsMain(s: App)
    requires Enabled(s, OfMain) && Pool.Inv(s.pool) && MainOk(s)
    ensures MainOk(AfterMain(s))
  {
    if s.mainPc.StoppingEngine? {
      EngineStepKeepsMain(s);
      hide MainOk;
    } else if s.mainPc.Stopping? {
      StopStepKeepsMain(s);
      hide MainOk;
    } else {
      hide Pool.Inv, Pool.Apply, Pool.Enabled;
    }
  }

  // ----- Conservation of tasks -----

  /** The tasks around a collector: what the pool took over, what the collector holds, what it gave up. */
  ghost predicate Balanced(pool: Pool.Pool, col: Collector, e: CollectorEffect) {
    multiset(pool.accepted) + Held(col) + multiset(e.arrived) ==
    multiset(e.pool.accepted) + Held(e.col) + multiset(e.refused)
  }

  lemma {:induction false} WatchConserves(c: nat, col: Collector, pool: Pool.Pool, serial: nat, work: Work)
    requires CanAct(c, col, pool, Watch(work))
    ensures Balanced(pool, col, ActOf(c, col, pool, serial, Watch(work)))
  {
    var task := Task(serial, work);
    MultisetAppend(col.chan, task);
    MultisetAppend(col.dropped, task);
    hide Pool.Enabled;
  }

  lemma {:induction false} ArrivalConserves(c: nat, col: Collector, pool: Pool.Pool, serial: nat, act: CollectorAct)
    requires CanAct(c, col, pool, act) && c < |pool.submitters| && CollectorOk(col, pool.submitters[c])
    requires act.TakeEvent? || act.Tick?
    ensures Balanced(pool, col, ActOf(c, col, pool, serial, act))
  {
    hide Pool.Enabled;
    if act.TakeEvent? {
      TailMultiset(col.chan);
    }
  }

  lemma {:induction false} RefusalConserves(c: nat, col: Collector, pool: Pool.Pool, serial: nat, act: CollectorAct)
    requires CanAct(c, col, pool, act)
    requires act.CtxRefuse? || act.StopRefuse?
    ensures Balanced(pool, col, ActOf(c, col, pool, serial, act))
  {
    TailMultiset(col.todo);
    hide Pool.Enabled;
  }

  lemma {:induction false} MoveOut(accepted: multiset<Task>, held: multiset<Task>, head: multiset<Task>,
                                   tail: multiset<Task>)
    ensures accepted + (held + (head + tail)) == (accepted + head) + (held + tail)
    ensures accepted + (held + (head + tail)) == accepted + (held + tail) + head
  {
  }

  lemma {:induction false} SendOutcome(c: nat, col: Collector, pool: Pool.Pool, serial: nat)
    requires CanAct(c, col, pool, Send) && CollectorOk(col, pool.submitters[c])
    ensures var e := ActOf(c, col, pool, serial, Send);
            && e.col.chan == col.chan && e.col.dropped == col.dropped && e.col.todo == col.todo[1..]
            && e.arrived == []
            && ((e.pool.accepted == pool.accepted + [col.todo[0]] && e.refused == [])
                || (e.pool.accepted == pool.accepted && e.refused == [col.todo[0]]))
  {
  }

  lemma {:induction false} SendConserves(c: nat, col: Collector, pool: Pool.Pool, serial: nat)
    requires CanAct(c, col, pool, Send) && CollectorOk(col, pool.submitters[c])
    ensures Balanced(pool, col, ActOf(c, col, pool, serial, Send))
  {
    var head, tail := multiset{col.todo[0]}, multiset(col.todo[1..]);
    SendOutcome(c, col, pool, serial);
    TailMultiset(col.todo);
    MultisetAppend(pool.accepted, col.todo[0]);
    MoveOut(multiset(pool.accepted), multiset(col.chan) + multiset(col.dropped), head, tail);
    hide CanAct, ActOf, CollectorOk;
  }

  /** What a collector had and received is what it has, what it handed over and what it gave up. */
  lemma {:induction false} CollectorConserves(c: nat, col: Collector, pool: Pool.Pool, serial: nat, act: CollectorAct)
    requires CanAct(c, col, pool, act) && c < |pool.submitters| && CollectorOk(col, pool.submitters[c])
    ensures Balanced(pool, col, ActOf(c, col, pool, serial, act))
  {
    match act {
      case Watch(work) => WatchConserves(c, col, pool, serial, work);
      case TakeEvent => ArrivalConserves(c, col, pool, serial, act);
      case Tick => ArrivalConserves(c, col, pool, serial, act);
      case CtxRefuse => RefusalConserves(c, col, pool, serial, act);
      case StopRefuse => RefusalConserves(c, col, pool, serial, act);
      case Send => SendConserves(c, col, pool, serial);
      case _ => assert Balanced(pool, col, ActOf(c, col, pool, serial, act));
    }
    hide Balanced, ActOf;
  }

  lemma {:induction false} CollectorSerials(c: nat, col: Collector, pool: Pool.Pool, serial: nat, act: CollectorAct)
    requires CanAct(c, col, pool, act)
    ensures var e := ActOf(c, col, pool, serial, act);
            forall i :: 0 <= i < |e.arrived| ==> e.arrived[i].serial == serial + i
  {
    hide Pool.Enabled, Pool.Apply;
  }

  lemma {:induction false} Rebalance(received: multiset<Task>, accepted: multiset<Task>, rejected: multiset<Task>,
                                     held: multiset<Task>,
                  arrived: multiset<Task>, accepted': multiset<Task>, refused: multiset<Task>, held': multiset<Task>,
                  part: multiset<Task>, part': multiset<Task>)
    requires received == accepted + rejected + held
    requires accepted + part + arrived == accepted' + part' + refused
    requires held' + part == held + part'
    ensures received + arrived == accepted' + (rejected + refused) + held'
  {
    forall t ensures (received + arrived)[t] == (accepted' + (rejected + refused) + held')[t] {
      assert (accepted + part + arrived)[t] == (accepted' + part' + refused)[t];
      assert (held' + part)[t] == (held + part')[t];
    }
  }

  lemma {:induction false} CollectorStepKeepsTasks(s: App, c: nat, act: CollectorAct)
    requires Enabled(s, OfCollector(c, act)) && CollectorsOk(s) && TasksOk(s)
    ensures TasksOk(AfterCollector(s, c, act))
  {
    var col := s.collectors[c];
    var e := ActOf(c, col, s.pool, |s.received|, act);
    CollectorConserves(c, col, s.pool, |s.received|, act);
    CollectorSerials(c, col, s.pool, |s.received|, act);
    hide ActOf, CanAct, CollectorOk, Held, Gather;
    GatherUpdate(s.collectors, c, e.col, Held);
    Rebalance(multiset(s.received), multiset(s.pool.accepted), multiset(s.rejected), Gather(s.collectors, Held),
              multiset(e.arrived), multiset(e.pool.accepted), multiset(e.refused),
              Gather(s.collectors[c := e.col], Held), Held(col), Held(e.col));
    MultisetConcat(s.received, e.arrived);
    MultisetConcat(s.rejected, e.refused);
  }

  lemma {:induction false} WorkerStepKeepsTasks(s: App, w: nat, act: WorkerAct)
    requires Enabled(s, OfWorker(w, act)) && JobsOk(s) && TasksOk(s)
    ensures TasksOk(AfterWorker(s, w, act))
  {
    WorkerStaysOk(s.config, w, s.jobs[w], s.pool, s.bus, |s.issued|, act);
    hide WorkOf, CanWork, Held, Gather;
  }

  lemma {:induction false} MainStepKeepsTasks(s: App)
    requires Enabled(s, OfMain) && TasksOk(s)
    ensures TasksOk(AfterMain(s))
  {
    MainFrame(s);
    if s.mainPc.Stopping? && !s.mainPc.signalled {
      var k := s.mainPc.k;
      GatherUpdate(s.collectors, k, s.collectors[k].(stopChClosed := true), Held);
    }
    hide Enabled, AfterMain, Gather;
  }

  // ----- Conservation of alerts -----

  lemma {:induction false} ProducesCollectorDrafts(config: Config, work: Work, drafts: seq<Draft>)
    requires Produces(config, work, drafts)
    ensures CollectorDrafts(drafts)
  {
    match work {
      case PodEvent(pod) =>
        var overdue :| drafts == PodDrafts(pod, config.restartThreshold, overdue);
        PodSeverities(pod, config.restartThreshold, overdue);
      case NodeEvent(node) => NodeSeverities(node, node.conditions);
      case PodMetricsCheck =>
        var ms :| drafts == PodMetricDrafts(ms, config.thresholds);
        PodMetricSeverities(ms, config.thresholds);
      case NodeMetricsCheck =>
        var ms :| drafts == NodeMetricDrafts(ms, config.thresholds);
        NodeMetricSeverities(ms, config.thresholds);
    }
  }

  /** What a worker issues it still has to store, or has stored, or could not store. */
  ghost predicate StoresAll(job: Job, e: WorkerEffect) {
    Unstored(job) + multiset(e.issued) == Unstored(e.job) + multiset(e.stored) + multiset(e.failed)
  }

  /** What a worker stores it publishes next. */
  ghost predicate PublishesAll(job: Job, bus: Bus.Bus, e: WorkerEffect) {
    multiset(bus.published) + Unpublished(job) + multiset(e.stored) == multiset(e.bus.published) + Unpublished(e.job)
  }

  lemma {:induction false} WorkerStoresAll(config: Config, w: nat, job: Job, pool: Pool.Pool, bus: Bus.Bus,
                                           firstId: nat, act: WorkerAct)
    requires CanWork(config, w, job, pool, act)
    ensures StoresAll(job, WorkOf(config, w, job, pool, bus, firstId, act))
  {
    hide Produces, Pool.Enabled, Pool.Apply;
    if act.CreateSucceeds? || act.CreateFails? {
      TailMultiset(job.todo);
    }
  }

  lemma {:induction false} WorkerPublishesAll(config: Config, w: nat, job: Job, pool: Pool.Pool, bus: Bus.Bus,
                                              firstId: nat, act: WorkerAct)
    requires CanWork(config, w, job, pool, act)
    ensures PublishesAll(job, bus, WorkOf(config, w, job, pool, bus, firstId, act))
  {
    hide Produces, Pool.Enabled, Pool.Apply;
    if act.Publish? {
      MultisetAppend(bus.published, job.alert);
      assert Bus.AfterPublish(bus, job.alert).published == bus.published + [job.alert];
      hide Bus.AfterPublish;
    } else if act.CreateSucceeds? {
      var e := WorkOf(config, w, job, pool, bus, firstId, act);
      assert e.stored == [job.todo[0]] && e.job.alert == job.todo[0] && e.bus == bus;
    } else {
      var e := WorkOf(config, w, job, pool, bus, firstId, act);
      assert e.stored == [] && e.bus == bus;
    }
  }

  lemma {:induction false} WorkerIssues(config: Config, w: nat, job: Job, pool: Pool.Pool, bus: Bus.Bus,
                                        firstId: nat, act: WorkerAct)
    requires CanWork(config, w, job, pool, act)
    ensures var e := WorkOf(config, w, job, pool, bus, firstId, act);
            forall i :: 0 <= i < |e.issued| ==> e.issued[i].id == firstId + i && CollectorAlert(e.issued[i])
  {
    if act.Start? {
      ProducesCollectorDrafts(config, pool.queue[0].work, act.drafts);
    }
    hide Produces, Pool.Enabled, Pool.Apply;
  }

  lemma {:induction false} RebalanceThree(whole: multiset<Alert>, a: multiset<Alert>, b: multiset<Alert>,
                                          rest: multiset<Alert>,
                       more: multiset<Alert>, a': multiset<Alert>, b': multiset<Alert>, rest': multiset<Alert>,
                       part: multiset<Alert>, part': multiset<Alert>)
    requires whole == a + b + rest
    requires part + more == part' + a' + b'
    requires rest' + part == rest + part'
    ensures whole + more == (a + a') + (b + b') + rest'
  {
    forall x ensures (whole + more)[x] == ((a + a') + (b + b') + rest')[x] {
      assert (part + more)[x] == (part' + a' + b')[x];
      assert (rest' + part)[x] == (rest + part')[x];
    }
  }

  lemma {:induction false} WorkerStepKeepsIds(s: App, w: nat, act: WorkerAct)
    requires Enabled(s, OfWorker(w, act)) && AlertsOk(s)
    ensures var t := AfterWorker(s, w, act);
            forall i :: 0 <= i < |t.issued| ==> t.issued[i].id == i && CollectorAlert(t.issued[i])
  {
    WorkerIssues(s.config, w, s.jobs[w], s.pool, s.bus, |s.issued|, act);
    hide WorkOf, CanWork, Unstored, Unpublished, Gather, CollectorAlert;
  }

  lemma {:induction false} WorkerStepKeepsIssued(s: App, w: nat, act: WorkerAct)
    requires Enabled(s, OfWorker(w, act))
    requires multiset(s.issued) == multiset(s.stored) + multiset(s.failed) + Gather(s.jobs, Unstored)
    ensures var t := AfterWorker(s, w, act);
            multiset(t.issued) == multiset(t.stored) + multiset(t.failed) + Gather(t.jobs, Unstored)
  {
    var e := WorkOf(s.config, w, s.jobs[w], s.pool, s.bus, |s.issued|, act);
    WorkerStoresAll(s.config, w, s.jobs[w], s.pool, s.bus, |s.issued|, act);
    hide WorkOf, CanWork, Unstored, Unpublished, Gather;
    GatherUpdate(s.jobs, w, e.job, Unstored);
    RebalanceThree(multiset(s.issued), multiset(s.stored), multiset(s.failed), Gather(s.jobs, Unstored),
                   multiset(e.issued), multiset(e.stored), multiset(e.failed), Gather(s.jobs[w := e.job], Unstored),
                   Unstored(s.jobs[w]), Unstored(e.job));
    MultisetConcat(s.issued, e.issued);
    MultisetConcat(s.stored, e.stored);
    MultisetConcat(s.failed, e.failed);
  }

  lemma {:induction false} RebalanceTwo(whole: multiset<Alert>, a: multiset<Alert>, rest: multiset<Alert>,
                                        more: multiset<Alert>,
                     a': multiset<Alert>, rest': multiset<Alert>, part: multiset<Alert>, part': multiset<Alert>)
    requires whole == a + rest
    requires a + part + more == a' + part'
    requires rest' + part == rest + part'
    ensures whole + more == a' + rest'
  {
    forall x ensures (whole + more)[x] == (a' + rest')[x] {
      assert (a + part + more)[x] == (a' + part')[x];
      assert (rest' + part)[x] == (rest + part')[x];
    }
  }

  lemma {:induction false} WorkerStepKeepsStored(s: App, w: nat, act: WorkerAct)
    requires Enabled(s, OfWorker(w, act)) && AlertsOk(s)
    ensures var t := AfterWorker(s, w, act);
            multiset(t.stored) == multiset(t.bus.published) + Gather(t.jobs, Unpublished)
  {
    var e := WorkOf(s.config, w, s.jobs[w], s.pool, s.bus, |s.issued|, act);
    WorkerPublishesAll(s.config, w, s.jobs[w], s.pool, s.bus, |s.issued|, act);
    hide WorkOf, CanWork, Unstored, Unpublished, Gather;
    GatherUpdate(s.jobs, w, e.job, Unpublished);
    MultisetConcat(s.stored, e.stored);
    RebalanceTwo(multiset(s.stored), multiset(s.bus.published), Gather(s.jobs, Unpublished), multiset(e.stored),
                 multiset(e.bus.published), Gather(s.jobs[w := e.job], Unpublished),
                 Unpublished(s.jobs[w]), Unpublished(e.job));
  }

  lemma {:induction false} BusTurnFrame(bus: Bus.Bus, turn: Bus.Step)
    requires Bus.Enabled(bus, turn) && (turn.Receive? || turn.Notify? || turn.EndNotify? || turn.Leave?)
    ensures var after := Bus.Apply(bus, turn);
            && after.published == bus.published && after.capacity == bus.capacity
            && after.stopChClosed == bus.stopChClosed && after.ctxDone == bus.ctxDone
            && (bus.dispatcher.Gone? ==> after.dispatcher.Gone?)
  {
  }

  // ----- The invariant holds on every run -----

  lemma {:induction false} CollectorStepKeepsInv(s: App, c: nat, act: CollectorAct)
    requires Inv(s) && Enabled(s, OfCollector(c, act))
    ensures Inv(AfterCollector(s, c, act))
  {
    StepKeepsPool(s, OfCollector(c, act));
    CollectorStepKeepsFrame(s, c, act);
    CollectorStepKeepsMain(s, c, act);
    CollectorStepKeepsTasks(s, c, act);
    CollectorStaysOk(c, s.collectors[c], s.pool, |s.received|, act);
    hide Pool.Inv, Bus.Inv, Gather, ActOf, CanAct, Shape, CollectorsOk, MainOk, TasksOk;
  }

  lemma {:induction false} WorkerStepKeepsInv(s: App, w: nat, act: WorkerAct)
    requires Inv(s) && Enabled(s, OfWorker(w, act))
    ensures Inv(AfterWorker(s, w, act))
  {
    hide Pool.Inv, Bus.Inv, Gather, CanWork, Shape, CollectorsOk, MainOk, JobsOk, TasksOk;
    StepKeepsPool(s, OfWorker(w, act));
    StepKeepsBus(s, OfWorker(w, act));
    WorkerStepKeepsFrame(s, w, act);
    WorkerStepKeepsMain(s, w, act);
    WorkerStepKeepsTasks(s, w, act);
    WorkerStepKeepsIds(s, w, act);
    WorkerStepKeepsIssued(s, w, act);
    WorkerStepKeepsStored(s, w, act);
    hide AfterWorker;
  }

  lemma {:induction false} BusStepKeepsFrame(s: App, turn: Bus.Step)
    requires Enabled(s, OfBus(turn)) && Shape(s) && CollectorsOk(s) && JobsOk(s) && MainOk(s)
    ensures var t := Apply(s, OfBus(turn)); Shape(t) && CollectorsOk(t) && JobsOk(t) && MainOk(t)
  {
    BusTurnFrame(s.bus, turn);
    hide Bus.Apply, Bus.Enabled, CollectorOk;
  }

  lemma {:induction false} BusStepKeepsInv(s: App, turn: Bus.Step)
    requires Inv(s) && Enabled(s, OfBus(turn))
    ensures Inv(Apply(s, OfBus(turn)))
  {
    StepKeepsBus(s, OfBus(turn));
    BusStepKeepsFrame(s, turn);
    BusTurnFrame(s.bus, turn);
    hide Pool.Inv, Bus.Inv, Gather, Bus.Apply, Bus.Enabled, Shape, CollectorsOk, JobsOk, MainOk, Held;
  }

  lemma {:induction false} MainStepKeepsInv(s: App)
    requires Inv(s) && Enabled(s, OfMain)
    ensures Inv(AfterMain(s))
  {
    StepKeepsPool(s, OfMain);
    StepKeepsBus(s, OfMain);
    MainStepKeepsFrame(s);
    MainStepKeepsMain(s);
    MainStepKeepsTasks(s);
    MainFrame(s);
    hide Pool.Inv, Bus.Inv, Gather, AfterMain, MainEnabled, Shape, CollectorsOk, MainOk, JobsOk, TasksOk;
  }

  lemma {:induction false} StepKeepsInv(s: App, step: Step)
    requires Inv(s) && Enabled(s, step)
    ensures Inv(Apply(s, step))
  {
    hide Inv;
    match step {
      case OfCollector(c, act) => CollectorStepKeepsInv(s, c, act);
      case OfWorker(w, act) => WorkerStepKeepsInv(s, w, act);
      case OfBus(turn) => BusStepKeepsInv(s, turn);
      case OfMain => MainStepKeepsInv(s);
    }
  }

  lemma {:induction false} RunKeepsInv(s: App, steps: seq<Step>, t: App)
    requires Inv(s) && Run(s, steps, t)
    ensures Inv(t)
    decreases |steps|
  {
    if steps != [] {
      StepKeepsInv(s, steps[0]);
      hide Inv;
      RunKeepsInv(Apply(s, steps[0]), steps[1..], t);
    }
  }
}

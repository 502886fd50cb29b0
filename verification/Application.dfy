/** The whole alert pipeline and its shutdown: three collectors submit tasks to the worker pool, the workers
    store and publish alerts, the event bus notifies the observers, and `main` takes all of it down. Every
    goroutine is a process; a step is what one of them does between two scheduling points. */
module Application {
  import opened Sums
  import opened Models
  import opened Collectors
  import opened Tasks
  import Pool = WorkerPool
  import Bus = EventBus

  // ----- State -----

  /** Where the submitting goroutine of a collector is: at its select, at one of the three points inside
      `SubmitWithContext`, or returned. */
  datatype Stage = AtSelect | BeforeCtxCheck | BeforeStopCheck | InSubmit | Gone

  /** A collector: the watch goroutine with the channel it fills, and the goroutine that submits. `todo` starts
      with the task being submitted. */
  datatype Collector = Collector(
    watching: bool, chan: seq<Task>, capacity: nat, dropped: seq<Task>,
    stage: Stage, todo: seq<Task>, stopChClosed: bool)

  /** The alerts a worker still has to store; `Publishing` is between storing an alert and publishing it. */
  datatype Job = Idle | Storing(todo: seq<Alert>) | Publishing(alert: Alert, todo: seq<Alert>)

  /** `Stopping(k, signalled)`: collectors before k are joined, and k's stop channel may be closed already. */
  datatype MainPc =
    | Serving | Stopping(k: nat, signalled: bool) | StoppingEngine
    | StoppingBus(signalled: bool) | ClosingDatabase | Done

  datatype Config = Config(restartThreshold: int32, thresholds: Thresholds)

  /** `received`, `rejected`, `issued`, `stored` and `failed` record the history of tasks and alerts. */
  datatype App = App(
    config: Config,
    pool: Pool.Pool,
    bus: Bus.Bus,
    collectors: seq<Collector>,
    jobs: seq<Job>,
    mainPc: MainPc,
    dbClosed: bool,
    crashed: bool,
    received: seq<Task>,
    rejected: seq<Task>,
    issued: seq<Alert>,
    stored: seq<Alert>,
    failed: seq<Alert>)

  // The collectors, in the order in which `shutdown` stops them.
  const METRICS: nat := 0
  const PODS: nat := 1
  const NODES: nat := 2

  const WORKERS: nat := 5
  const QUEUE_SIZE: nat := 300
  const POD_CHANNEL_SIZE: nat := 500
  const NODE_CHANNEL_SIZE: nat := 300

  function Initial(config: Config, observers: nat): App {
    var checks := [Task(0, PodMetricsCheck), Task(1, NodeMetricsCheck)];
    App(config,
        Pool.Initial(WORKERS, QUEUE_SIZE, 3),
        Bus.NewBus().(notified := seq(observers, _ => []), since := seq(observers, _ => 0)),
        [Collector(false, [], 0, [], BeforeCtxCheck, checks, false),
         Collector(true, [], POD_CHANNEL_SIZE, [], AtSelect, [], false),
         Collector(true, [], NODE_CHANNEL_SIZE, [], AtSelect, [], false)],
        seq(WORKERS, _ => Idle),
        Serving, false, false, checks, [], [], [], [])
  }

  // ----- Steps of the collectors -----

  datatype CollectorAct =
    | Watch(work: Work)   // the watch goroutine receives an event
    | EndWatch
    | TakeEvent           // the dispatcher receives from its channel
    | Tick                // the metrics ticker fires
    | End                 // the dispatcher or the metrics loop returns
    | CtxRefuse           // SubmitWithContext: the context is done
    | CtxPass
    | StopRefuse          // Submit: the pool is stopped
    | StopPass
    | Send

  /** What one step of collector c changes: the collector itself, the pool, and the tasks it adds to the history. */
  datatype CollectorEffect = CollectorEffect(col: Collector, pool: Pool.Pool, arrived: seq<Task>, refused: seq<Task>)

  predicate Told(col: Collector, pool: Pool.Pool) {
    col.stopChClosed || pool.ctxDone
  }

  ghost predicate CanAct(c: nat, col: Collector, pool: Pool.Pool, act: CollectorAct) {
    match act
    case Watch(work) => col.watching && (c == PODS ==> work.PodEvent?) && (c == NODES ==> work.NodeEvent?)
    case EndWatch => col.watching && Told(col, pool)
    case TakeEvent => col.stage.AtSelect? && col.chan != []
    case Tick => c == METRICS && col.stage.AtSelect?
    case End => col.stage.AtSelect? && Told(col, pool)
    case CtxRefuse => col.stage.BeforeCtxCheck? && col.todo != [] && pool.ctxDone
    case CtxPass => col.stage.BeforeCtxCheck? && col.todo != [] && !pool.ctxDone
    case StopRefuse => col.stage.BeforeStopCheck? && col.todo != [] && Pool.Enabled(pool, Pool.Refuse(c))
    case StopPass => col.stage.BeforeStopCheck? && col.todo != [] && Pool.Enabled(pool, Pool.Admit(c, col.todo[0]))
    case Send => col.stage.InSubmit? && col.todo != [] && Pool.Enabled(pool, Pool.Send(c))
  }

  /** The submission of todo[0] is over; go on with the next task, or back to the select. */
  function NextSubmission(col: Collector): Collector
    requires col.todo != []
  {
    col.(todo := col.todo[1..], stage := if |col.todo| == 1 then AtSelect else BeforeCtxCheck)
  }

  /** `serial` is the number of the next task to arrive. */
  ghost function ActOf(c: nat, col: Collector, pool: Pool.Pool, serial: nat, act: CollectorAct): CollectorEffect
    requires CanAct(c, col, pool, act)
  {
    match act
    case Watch(work) =>
      var task := Task(serial, work);
      CollectorEffect(if |col.chan| < col.capacity then col.(chan := col.chan + [task])
                      else col.(dropped := col.dropped + [task]),
                      pool, [task], [])
    case EndWatch => CollectorEffect(col.(watching := false), pool, [], [])
    case TakeEvent =>
      CollectorEffect(col.(chan := col.chan[1..], todo := [col.chan[0]], stage := BeforeCtxCheck), pool, [], [])
    case Tick =>
      var checks := [Task(serial, PodMetricsCheck), Task(serial + 1, NodeMetricsCheck)];
      CollectorEffect(col.(todo := checks, stage := BeforeCtxCheck), pool, checks, [])
    case End => CollectorEffect(col.(stage := Gone), pool, [], [])
    case CtxRefuse => CollectorEffect(NextSubmission(col), pool, [], [col.todo[0]])
    case CtxPass => CollectorEffect(col.(stage := BeforeStopCheck), pool, [], [])
    case StopRefuse => CollectorEffect(NextSubmission(col), Pool.Apply(pool, Pool.Refuse(c)), [], [col.todo[0]])
    case StopPass =>
      CollectorEffect(col.(stage := InSubmit), Pool.Apply(pool, Pool.Admit(c, col.todo[0])), [], [])
    case Send =>
      var after := Pool.AfterSend(pool, c);
      CollectorEffect(NextSubmission(col), after, [],
                      if |after.accepted| > |pool.accepted| then [] else [col.todo[0]])
  }

  // ----- Steps of the workers -----

  datatype WorkerAct =
    | Start(drafts: seq<Draft>)   // dequeue a task and evaluate it
    | CreateSucceeds
    | CreateFails
    | Publish
    | Finish
    | Quit(why: Pool.Step)

  datatype WorkerEffect = WorkerEffect(job: Job, pool: Pool.Pool, bus: Bus.Bus,
                                       issued: seq<Alert>, stored: seq<Alert>, failed: seq<Alert>)

  /** What a task may find out when it runs: pods and nodes are evaluated as they were received, metrics are
      whatever the metrics server says at that time. */
  ghost predicate Produces(config: Config, work: Work, drafts: seq<Draft>) {
    match work
    case PodEvent(pod) => exists overdue :: drafts == PodDrafts(pod, config.restartThreshold, overdue)
    case NodeEvent(node) => drafts == NodeDrafts(node, node.conditions)
    case PodMetricsCheck => exists ms :: drafts == PodMetricDrafts(ms, config.thresholds)
    case NodeMetricsCheck => exists ms :: drafts == NodeMetricDrafts(ms, config.thresholds)
  }

  ghost predicate CanWork(config: Config, w: nat, job: Job, pool: Pool.Pool, act: WorkerAct) {
    match act
    case Start(drafts) =>
      job.Idle? && Pool.Enabled(pool, Pool.Receive(w)) && Produces(config, pool.queue[0].work, drafts)
    case CreateSucceeds => job.Storing? && job.todo != []
    case CreateFails => job.Storing? && job.todo != []
    case Publish => job.Publishing?
    case Finish => job == Storing([]) && Pool.Enabled(pool, Pool.Complete(w))
    case Quit(why) =>
      job.Idle? && why in {Pool.QuitOnClosed(w), Pool.QuitOnStop(w), Pool.QuitOnCancel(w)} && Pool.Enabled(pool, why)
  }

  /** The new alerts get the next unused identifiers. */
  function Issue(firstId: nat, drafts: seq<Draft>): seq<Alert> {
    seq(|drafts|, i requires 0 <= i < |drafts| => NewAlert(firstId + i, drafts[i]))
  }

  ghost function WorkOf(config: Config, w: nat, job: Job, pool: Pool.Pool, bus: Bus.Bus, firstId: nat, act: WorkerAct)
    : WorkerEffect
    requires CanWork(config, w, job, pool, act)
  {
    match act
    case Start(drafts) =>
      var alerts := Issue(firstId, drafts);
      WorkerEffect(Storing(alerts), Pool.Apply(pool, Pool.Receive(w)), bus, alerts, [], [])
    case CreateSucceeds => WorkerEffect(Publishing(job.todo[0], job.todo[1..]), pool, bus, [], [job.todo[0]], [])
    case CreateFails => WorkerEffect(Storing(job.todo[1..]), pool, bus, [], [], [job.todo[0]])
    case Publish => WorkerEffect(Storing(job.todo), pool, Bus.AfterPublish(bus, job.alert), [], [], [])
    case Finish => WorkerEffect(Idle, Pool.Apply(pool, Pool.Complete(w)), bus, [], [], [])
    case Quit(why) => WorkerEffect(Idle, Pool.Apply(pool, why), bus, [], [], [])
  }

  // ----- Steps of main -----

  predicate Joinable(col: Collector) {
    col.stage.Gone? && !col.watching
  }

  ghost predicate MainEnabled(s: App) {
    match s.mainPc
    case Serving => true
    case Stopping(k, signalled) => k < |s.collectors| && (signalled ==> Joinable(s.collectors[k]))
    case StoppingEngine => s.pool.stopPc.Returned? || Pool.Enabled(s.pool, EngineTurn(s.pool))
    case StoppingBus(signalled) => signalled ==> s.bus.dispatcher.Gone?
    case ClosingDatabase => true
    case Done => false
  }

  /** The step of `WorkerPool.Stop` that comes next. */
  function EngineTurn(pool: Pool.Pool): Pool.Step {
    match pool.stopPc
    case NotCalled => Pool.StopSetFlag
    case FlagSet => Pool.StopSignal
    case Signalled => Pool.StopJoin
    case _ => Pool.StopCloseQueue
  }

  /** Closing a channel twice panics. */
  ghost function AfterMain(s: App): App
    requires MainEnabled(s)
  {
    match s.mainPc
    case Serving =>
      s.(pool := s.pool.(ctxDone := true), bus := s.bus.(ctxDone := true), mainPc := Stopping(0, false))
    case Stopping(k, false) =>
      var col := s.collectors[k];
      s.(collectors := s.collectors[k := col.(stopChClosed := true)], mainPc := Stopping(k, true),
         crashed := col.stopChClosed)
    case Stopping(k, true) =>
      s.(mainPc := if k + 1 < |s.collectors| then Stopping(k + 1, false) else StoppingEngine)
    case StoppingEngine =>
      if s.pool.stopPc.Returned? then s.(mainPc := StoppingBus(false))
      else
        var turn := EngineTurn(s.pool);
        s.(pool := Pool.Apply(s.pool, turn),
           crashed := (turn.StopSignal? && s.pool.stopChanClosed) || (turn.StopCloseQueue? && s.pool.queueClosed))
    case StoppingBus(false) =>
      s.(bus := s.bus.(stopChClosed := true), mainPc := StoppingBus(true), crashed := s.bus.stopChClosed)
    case StoppingBus(true) => s.(mainPc := ClosingDatabase)
    case ClosingDatabase => s.(dbClosed := true, mainPc := Done)
  }

  // ----- Steps of the application -----

  datatype Step =
    | OfCollector(c: nat, act: CollectorAct)
    | OfWorker(w: nat, work: WorkerAct)
    | OfBus(turn: Bus.Step)
    | OfMain

  ghost predicate Enabled(s: App, step: Step) {
    && !s.crashed
    && match step
       case OfCollector(c, act) => c < |s.collectors| && CanAct(c, s.collectors[c], s.pool, act)
       case OfWorker(w, act) => w < |s.jobs| && CanWork(s.config, w, s.jobs[w], s.pool, act)
       case OfBus(turn) =>
         (turn.Receive? || turn.Notify? || turn.EndNotify? || turn.Leave?) && Bus.Enabled(s.bus, turn)
       case OfMain => MainEnabled(s)
  }

  ghost function AfterCollector(s: App, c: nat, act: CollectorAct): App
    requires Enabled(s, OfCollector(c, act))
  {
    var e := ActOf(c, s.collectors[c], s.pool, |s.received|, act);
    s.(collectors := s.collectors[c := e.col], pool := e.pool, crashed := e.pool.panicked,
       received := s.received + e.arrived, rejected := s.rejected + e.refused)
  }

  ghost function AfterWorker(s: App, w: nat, act: WorkerAct): App
    requires Enabled(s, OfWorker(w, act))
  {
    var e := WorkOf(s.config, w, s.jobs[w], s.pool, s.bus, |s.issued|, act);
    s.(jobs := s.jobs[w := e.job], pool := e.pool, bus := e.bus,
       issued := s.issued + e.issued, stored := s.stored + e.stored, failed := s.failed + e.failed)
  }

  ghost function Apply(s: App, step: Step): App
    requires Enabled(s, step)
  {
    match step
    case OfCollector(c, act) => AfterCollector(s, c, act)
    case OfWorker(w, act) => AfterWorker(s, w, act)
    case OfBus(turn) => s.(bus := Bus.Apply(s.bus, turn))
    case OfMain => AfterMain(s)
  }

  ghost predicate Run(s: App, steps: seq<Step>, t: App)
    decreases |steps|
  {
    if steps == [] then s == t
    else Enabled(s, steps[0]) && Run(Apply(s, steps[0]), steps[1..], t)
  }
}

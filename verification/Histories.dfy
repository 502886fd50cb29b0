/** What the goroutines of the running application do with what passes through their hands, step by step over a run:
    events are buffered while there is room and handed on in order, every task is evaluated, and the alerts it raises
    are stored and published one by one. */
module Histories {
  import opened Sums
  import opened Models
  import opened Collectors
  import opened Tasks
  import opened Application
  import opened Pipeline
  import opened Shutdown
  import Pool = WorkerPool
  import Bus = EventBus

  /** What a history has gained. */
  ghost function Since<T>(before: seq<T>, after: seq<T>): seq<T> {
    if |before| <= |after| then after[|before|..] else []
  }

  lemma {:induction false} SinceAppend<T>(before: seq<T>, more: seq<T>)
    ensures Since(before, before + more) == more
  {
  }

  /** The parts of the invariant that these proofs need. */
  lemma {:induction false} InvParts(s: App)
    requires Inv(s)
    ensures Shape(s) && CollectorsOk(s) && |s.collectors| == 3
  {
    hide Pool.Inv, Bus.Inv, MainOk, CollectorOk, JobsOk, TasksOk, AlertsOk;
  }

  // ----- Watchers and dispatchers -----

  /** A watch event is dropped if and only if the channel is full: 500 pod events or 300 node events. Otherwise it goes to
      the end of the channel. */
  lemma {:induction false} WatchDropsIffFull(s: App, c: nat, work: Work)
    requires Reachable(s) && Enabled(s, OfCollector(c, Watch(work))) && (c == PODS || c == NODES)
    ensures var t := Apply(s, OfCollector(c, Watch(work)));
            var event := Task(|s.received|, work);
            && t.received == s.received + [event]
            && if |s.collectors[c].chan| == (if c == PODS then 500 else 300)
               then t.collectors[c].chan == s.collectors[c].chan
                    && t.collectors[c].dropped == s.collectors[c].dropped + [event]
               else t.collectors[c].chan == s.collectors[c].chan + [event]
                    && t.collectors[c].dropped == s.collectors[c].dropped
  {
    ReachableInv(s);
    hide Gather, Pool.Inv, Bus.Inv, TasksOk, AlertsOk, MainOk, JobsOk;
    assert CollectorOk(s.collectors[c], s.pool.submitters[c]);
  }

  /** `Kept`: events that a watcher put into its channel. `Begun`: tasks whose submission its dispatcher, or the metrics
      loop, began. `Handed`: tasks of which the submission ended, in the queue or rejected. */
  datatype TaskDeed = Kept(c: nat) | Begun(c: nat) | Handed(c: nat)

  ghost function TaskDeedAt(s: App, step: Step, deed: TaskDeed): seq<Task>
    requires Enabled(s, step)
  {
    var t := Apply(s, step);
    if !step.OfCollector? || step.c != deed.c then []
    else match deed
      case Kept(c) =>
        if step.act.Watch? && t.collectors[c].dropped == s.collectors[c].dropped then Since(s.received, t.received)
        else []
      case Begun(c) =>
        if step.act.TakeEvent? then t.collectors[c].todo
        else if step.act.Tick? then Since(s.received, t.received)
        else []
      case Handed(_) => Since(s.pool.accepted, t.pool.accepted) + Since(s.rejected, t.rejected)
  }

  ghost function TaskHistory(s: App, steps: seq<Step>, deed: TaskDeed): seq<Task>
    decreases |steps|
  {
    if steps == [] || !Enabled(s, steps[0]) then []
    else TaskDeedAt(s, steps[0], deed) + TaskHistory(Apply(s, steps[0]), steps[1..], deed)
  }

  /** A submission that ends takes the first task along: into the queue or among the rejected. */
  lemma {:induction false} SubmissionEndsInOrder(c: nat, col: Collector, pool: Pool.Pool, serial: nat, act: CollectorAct)
    requires CanAct(c, col, pool, act) && c < |pool.submitters| && CollectorOk(col, pool.submitters[c])
    requires act.Send? || act.CtxRefuse? || act.StopRefuse?
    ensures var e := ActOf(c, col, pool, serial, act);
            && e.arrived == [] && e.col.chan == col.chan && pool.accepted <= e.pool.accepted
            && col.todo == Since(pool.accepted, e.pool.accepted) + e.refused + e.col.todo
  {
    SinceAppend(pool.accepted, [col.todo[0]]);
    SinceAppend(pool.accepted, []);
    hide Since;
    assert col.todo == [col.todo[0]] + col.todo[1..];
    assert pool.accepted + [] == pool.accepted;
  }

  lemma {:induction false} OtherActsInOrder(c: nat, col: Collector, pool: Pool.Pool, serial: nat, act: CollectorAct)
    requires CanAct(c, col, pool, act) && c < |pool.submitters| && CollectorOk(col, pool.submitters[c])
    requires !act.Send? && !act.CtxRefuse? && !act.StopRefuse?
    ensures var e := ActOf(c, col, pool, serial, act);
            var kept := if act.Watch? && e.col.dropped == col.dropped then e.arrived else [];
            var taken := if act.TakeEvent? then e.col.todo else [];
            var begun := if act.Tick? then e.arrived else taken;
            && col.chan + kept == taken + e.col.chan
            && pool.accepted == e.pool.accepted && e.refused == []
            && col.todo + begun == e.col.todo
  {
    hide Pool.Enabled;
    if act.Watch? {
      assert |col.dropped + [Task(serial, act.work)]| == |col.dropped| + 1;
    } else if act.TakeEvent? {
      assert col.chan == [col.chan[0]] + col.chan[1..];
    }
  }

  lemma {:induction false} CollectorActInOrder(c: nat, col: Collector, pool: Pool.Pool, serial: nat, act: CollectorAct)
    requires CanAct(c, col, pool, act) && c < |pool.submitters| && CollectorOk(col, pool.submitters[c])
    ensures var e := ActOf(c, col, pool, serial, act);
            var kept := if act.Watch? && e.col.dropped == col.dropped then e.arrived else [];
            var taken := if act.TakeEvent? then e.col.todo else [];
            var begun := if act.Tick? then e.arrived else taken;
            && col.chan + kept == taken + e.col.chan
            && pool.accepted <= e.pool.accepted
            && col.todo + begun == Since(pool.accepted, e.pool.accepted) + e.refused + e.col.todo
  {
    hide CanAct, ActOf, CollectorOk;
    if act.Send? || act.CtxRefuse? || act.StopRefuse? {
      SubmissionEndsInOrder(c, col, pool, serial, act);
    } else {
      OtherActsInOrder(c, col, pool, serial, act);
      SinceAppend(pool.accepted, []);
      assert pool.accepted + [] == pool.accepted;
    }
  }

  lemma {:induction false} OwnActInOrder(s: App, c: nat, act: CollectorAct)
    requires CollectorsOk(s) && Enabled(s, OfCollector(c, act))
    ensures var t := Apply(s, OfCollector(c, act));
            var col, col' := s.collectors[c], t.collectors[c];
            var kept := if act.Watch? && col'.dropped == col.dropped then Since(s.received, t.received) else [];
            var taken := if act.TakeEvent? then col'.todo else [];
            var begun := if act.Tick? then Since(s.received, t.received) else taken;
            && |t.collectors| == |s.collectors|
            && col.chan + kept == taken + col'.chan
            && col.todo + begun ==
               Since(s.pool.accepted, t.pool.accepted) + Since(s.rejected, t.rejected) + col'.todo
  {
    assert CollectorOk(s.collectors[c], s.pool.submitters[c]);
    var e := ActOf(c, s.collectors[c], s.pool, |s.received|, act);
    CollectorActInOrder(c, s.collectors[c], s.pool, |s.received|, act);
    hide CanAct, ActOf, CollectorOk, CollectorsOk, Since;
    SinceAppend(s.received, e.arrived);
    SinceAppend(s.rejected, e.refused);
  }

  /** One step, in terms of the collector it may be a step of. */
  lemma {:induction false} StepInOrder(s: App, step: Step, c: nat)
    requires CollectorsOk(s) && |s.collectors| == 3 && Enabled(s, step) && c < 3
    ensures |Apply(s, step).collectors| == 3
    ensures c == PODS || c == NODES ==>
              s.collectors[c].chan + TaskDeedAt(s, step, Kept(c)) ==
              TaskDeedAt(s, step, Begun(c)) + Apply(s, step).collectors[c].chan
    ensures s.collectors[c].todo + TaskDeedAt(s, step, Begun(c)) ==
            TaskDeedAt(s, step, Handed(c)) + Apply(s, step).collectors[c].todo
  {
    hide Enabled, Apply, Since, CollectorsOk;
    if step.OfCollector? && step.c == c {
      TicksAreOfMetrics(s, step);
      OwnActInOrder(s, c, step.act);
    } else {
      OthersKeepCollector(s, step, c);
      assert [] + s.collectors[c].chan == s.collectors[c].chan + [];
      assert [] + s.collectors[c].todo == s.collectors[c].todo + [];
    }
  }

  lemma {:induction false} OthersKeepCollector(s: App, step: Step, c: nat)
    requires |s.collectors| == 3 && Enabled(s, step) && c < 3 && !(step.OfCollector? && step.c == c)
    ensures var t := Apply(s, step);
            && |t.collectors| == 3
            && t.collectors[c].chan == s.collectors[c].chan && t.collectors[c].todo == s.collectors[c].todo
  {
    match step {
      case OfMain =>
        MainFrame(s);
        hide Enabled, AfterMain;
      case _ =>
        hide ActOf, WorkOf, CanAct, CanWork, Bus.Apply;
    }
  }

  /** Every watcher keeps order: what was in its channel and what it added, each event it did not drop, is what its
      dispatcher took followed by what is in the channel. */
  lemma {:induction false} WatcherKeepsOrder(s: App, steps: seq<Step>, t: App, c: nat)
    requires Inv(s) && Run(s, steps, t) && (c == PODS || c == NODES)
    ensures |s.collectors| == |t.collectors| == 3
    ensures s.collectors[c].chan + TaskHistory(s, steps, Kept(c)) ==
            TaskHistory(s, steps, Begun(c)) + t.collectors[c].chan
    decreases |steps|
  {
    hide Inv, Apply, TaskDeedAt, Enabled, Shape, CollectorsOk;
    InvParts(s);
    if steps != [] {
      var next := Apply(s, steps[0]);
      StepInOrder(s, steps[0], c);
      StepKeepsInv(s, steps[0]);
      WatcherKeepsOrder(next, steps[1..], t, c);
      var k, b := TaskDeedAt(s, steps[0], Kept(c)), TaskDeedAt(s, steps[0], Begun(c));
      var ks, bs := TaskHistory(next, steps[1..], Kept(c)), TaskHistory(next, steps[1..], Begun(c));
      Chain(s.collectors[c].chan, k, b, next.collectors[c].chan, ks, bs, t.collectors[c].chan);
    }
  }

  /** Two stretches of a first-in, first-out line make one. */
  lemma {:induction false} Chain<T>(a: seq<T>, in1: seq<T>, out1: seq<T>, b: seq<T>, in2: seq<T>, out2: seq<T>, c: seq<T>)
    requires a + in1 == out1 + b && b + in2 == out2 + c
    ensures a + (in1 + in2) == (out1 + out2) + c
  {
    assert a + (in1 + in2) == (a + in1) + in2 == (out1 + b) + in2 == out1 + (b + in2) == out1 + (out2 + c);
  }

  /** Every submitter keeps order: the tasks whose submission began are those handed to the pool or rejected by it,
      followed by the one under way and those that wait behind it. */
  lemma {:induction false} SubmitterKeepsOrder(s: App, steps: seq<Step>, t: App, c: nat)
    requires Inv(s) && Run(s, steps, t) && c < 3
    ensures |s.collectors| == |t.collectors| == 3
    ensures s.collectors[c].todo + TaskHistory(s, steps, Begun(c)) ==
            TaskHistory(s, steps, Handed(c)) + t.collectors[c].todo
    decreases |steps|
  {
    hide Inv, Apply, TaskDeedAt, Enabled, Shape, CollectorsOk;
    InvParts(s);
    if steps != [] {
      var next := Apply(s, steps[0]);
      StepInOrder(s, steps[0], c);
      StepKeepsInv(s, steps[0]);
      SubmitterKeepsOrder(next, steps[1..], t, c);
      var k, b := TaskDeedAt(s, steps[0], Begun(c)), TaskDeedAt(s, steps[0], Handed(c));
      var ks, bs := TaskHistory(next, steps[1..], Begun(c)), TaskHistory(next, steps[1..], Handed(c));
      Chain(s.collectors[c].todo, k, b, next.collectors[c].todo, ks, bs, t.collectors[c].todo);
    }
  }

  /** From the start of the program: for pods and for nodes, the events that were not dropped are, in the order of their
      arrival, those handed to the pool or rejected, those with the dispatcher, and those in the channel. */
  lemma {:induction false} EventsKeepOrder(config: Config, observers: nat, steps: seq<Step>, t: App, c: nat)
    requires Run(Initial(config, observers), steps, t) && (c == PODS || c == NODES)
    ensures |t.collectors| == 3
    ensures TaskHistory(Initial(config, observers), steps, Kept(c)) ==
            TaskHistory(Initial(config, observers), steps, Handed(c)) + t.collectors[c].todo + t.collectors[c].chan
  {
    var s := Initial(config, observers);
    InitialInv(config, observers);
    WatcherKeepsOrder(s, steps, t, c);
    SubmitterKeepsOrder(s, steps, t, c);
    assert s.collectors[c].chan == [] && s.collectors[c].todo == [];
    hide *;
    var kept, begun, handed :=
      TaskHistory(s, steps, Kept(c)), TaskHistory(s, steps, Begun(c)), TaskHistory(s, steps, Handed(c));
    assert [] + kept == kept && [] + begun == begun;
  }

  // ----- The metrics loop -----

  function Works(tasks: seq<Task>): (works: seq<Work>)
    ensures |works| == |tasks| && forall i :: 0 <= i < |tasks| ==> works[i] == tasks[i].work
  {
    seq(|tasks|, i requires 0 <= i < |tasks| => tasks[i].work)
  }

  /** A pod check and a node check, so many times. */
  function Checks(times: nat): seq<Work> {
    if times == 0 then [] else [PodMetricsCheck, NodeMetricsCheck] + Checks(times - 1)
  }

  ghost function Ticks(steps: seq<Step>): nat {
    if steps == [] then 0
    else (if steps[0].OfCollector? && steps[0].act.Tick? then 1 else 0) + Ticks(steps[1..])
  }

  lemma {:induction false} TickBringsBoth(col: Collector, pool: Pool.Pool, serial: nat, act: CollectorAct)
    requires CanAct(METRICS, col, pool, act) && col.capacity == 0 && |col.chan| <= col.capacity
    ensures !act.TakeEvent?
    ensures act.Tick? ==> Works(ActOf(METRICS, col, pool, serial, act).arrived) == [PodMetricsCheck, NodeMetricsCheck]
  {
    hide Pool.Enabled, Pool.Apply;
  }

  lemma {:induction false} TickBeginsBoth(s: App, step: Step)
    requires Shape(s) && CollectorsOk(s) && Enabled(s, step)
    ensures Works(TaskDeedAt(s, step, Begun(METRICS))) ==
            if step.OfCollector? && step.act.Tick? then [PodMetricsCheck, NodeMetricsCheck] else []
  {
    if step.OfCollector? && step.c == METRICS {
      var e := ActOf(METRICS, s.collectors[METRICS], s.pool, |s.received|, step.act);
      assert CollectorOk(s.collectors[METRICS], s.pool.submitters[METRICS]);
      TickBringsBoth(s.collectors[METRICS], s.pool, |s.received|, step.act);
      SinceAppend(s.received, e.arrived);
      hide CanAct, ActOf, Works, Since, Shape, CollectorOk;
    } else {
      TicksAreOfMetrics(s, step);
      hide Apply, Enabled, Shape, CollectorsOk;
    }
  }

  lemma {:induction false} TicksAreOfMetrics(s: App, step: Step)
    requires Enabled(s, step)
    ensures step.OfCollector? && step.act.Tick? ==> step.c == METRICS
  {
  }

  lemma {:induction false} TicksBeginChecks(s: App, steps: seq<Step>, t: App)
    requires Inv(s) && Run(s, steps, t)
    ensures Works(TaskHistory(s, steps, Begun(METRICS))) == Checks(Ticks(steps))
    decreases |steps|
  {
    hide Inv, Apply, TaskDeedAt, Enabled, Shape, CollectorsOk, Works;
    InvParts(s);
    if steps != [] {
      var next := Apply(s, steps[0]);
      TickBeginsBoth(s, steps[0]);
      StepKeepsInv(s, steps[0]);
      TicksBeginChecks(next, steps[1..], t);
      WorksConcat(TaskDeedAt(s, steps[0], Begun(METRICS)), TaskHistory(next, steps[1..], Begun(METRICS)));
    }
  }

  /** Over every run the metrics loop submits one pod check and then one node check at the start and on each tick: what it
      has handed to the pool or seen rejected, and what it is about to submit, is just that. */
  lemma {:induction false} EveryTickSubmitsBothChecks(config: Config, observers: nat, steps: seq<Step>, t: App)
    requires Run(Initial(config, observers), steps, t)
    ensures |t.collectors| == 3
    ensures Works(TaskHistory(Initial(config, observers), steps, Handed(METRICS)) + t.collectors[METRICS].todo) ==
            Checks(1 + Ticks(steps))
  {
    hide Inv, Run, TaskHistory, Initial, Ticks, Works;
    var s := Initial(config, observers);
    InitialInv(config, observers);
    LoopBeginsWithChecks(config, observers);
    SubmitterKeepsOrder(s, steps, t, METRICS);
    TicksBeginChecks(s, steps, t);
    WorksConcat(s.collectors[METRICS].todo, TaskHistory(s, steps, Begun(METRICS)));
  }

  lemma {:induction false} LoopBeginsWithChecks(config: Config, observers: nat)
    ensures |Initial(config, observers).collectors| == 3
    ensures Works(Initial(config, observers).collectors[METRICS].todo) == [PodMetricsCheck, NodeMetricsCheck]
  {
  }

  lemma {:induction false} WorksConcat(a: seq<Task>, b: seq<Task>)
    ensures Works(a + b) == Works(a) + Works(b)
  {
  }

  // ----- Why a task is rejected -----

  /** A task is rejected only after the context was cancelled, after the pool was stopped, or by a full queue; a send that
      finds room puts it at the end of the queue. */
  lemma {:induction false} RejectedOnlyIf(s: App, c: nat, act: CollectorAct)
    requires Reachable(s) && Enabled(s, OfCollector(c, act))
    ensures var t := Apply(s, OfCollector(c, act));
            && (t.rejected != s.rejected ==> s.pool.ctxDone || s.pool.stopped || |s.pool.queue| == 300)
            && (act.Send? && |s.pool.queue| < 300 ==>
                  t.rejected == s.rejected && s.collectors[c].todo != []
                  && t.pool.queue == s.pool.queue + [s.collectors[c].todo[0]])
  {
    NeverCrashes(s);
    ReachableInv(s);
    hide Gather, Bus.Inv, TasksOk, AlertsOk, MainOk, JobsOk;
    assert CollectorOk(s.collectors[c], s.pool.submitters[c]);
  }

  /** A task gets past the first check only while the context is not done, past the second only while the pool is not
      stopped, and into the queue only from there. */
  lemma {:induction false} AdmittedOnlyIf(s: App, c: nat, act: CollectorAct)
    requires Enabled(s, OfCollector(c, act))
    ensures var t := Apply(s, OfCollector(c, act));
            var stage, next := s.collectors[c].stage, t.collectors[c].stage;
            && (next.BeforeStopCheck? && !stage.BeforeStopCheck? ==> stage.BeforeCtxCheck? && !s.pool.ctxDone)
            && (next.InSubmit? && !stage.InSubmit? ==> stage.BeforeStopCheck? && !s.pool.stopped)
            && (t.pool.accepted != s.pool.accepted ==> stage.InSubmit?)
            && (next.Gone? && !stage.Gone? ==>
                  stage.AtSelect? && (s.collectors[c].stopChClosed || s.pool.ctxDone))
            && (s.collectors[c].watching && !t.collectors[c].watching ==>
                  s.collectors[c].stopChClosed || s.pool.ctxDone)
  {
  }

  /** At its select a submitter can return if and only if its stop channel is closed or the context is done; a watcher can
      at any time under the same condition. */
  lemma {:induction false} CanReturnIffTold(s: App, c: nat)
    requires c < |s.collectors| && !s.crashed
    ensures Enabled(s, OfCollector(c, End)) <==>
            s.collectors[c].stage.AtSelect? && (s.collectors[c].stopChClosed || s.pool.ctxDone)
    ensures Enabled(s, OfCollector(c, EndWatch)) <==>
            s.collectors[c].watching && (s.collectors[c].stopChClosed || s.pool.ctxDone)
  {
  }

  // ----- Workers -----

  /** What an alert says, without its identifier and status. */
  function Contents(alerts: seq<Alert>): (drafts: seq<Draft>)
    ensures |drafts| == |alerts| && forall i :: 0 <= i < |alerts| ==> drafts[i] == alerts[i].draft
  {
    seq(|alerts|, i requires 0 <= i < |alerts| => alerts[i].draft)
  }

  /** A worker that starts a task takes the oldest one, issues one firing alert for each draft of its evaluation, in order
      and with the next identifiers, and has just these to store. */
  lemma {:induction false} StartIssuesItsDrafts(s: App, w: nat, drafts: seq<Draft>)
    requires Enabled(s, OfWorker(w, Start(drafts)))
    ensures var t := Apply(s, OfWorker(w, Start(drafts)));
            && |t.issued| == |s.issued| + |drafts| && s.issued <= t.issued
            && (forall i :: 0 <= i < |drafts| ==>
                  t.issued[|s.issued| + i] == Alert(|s.issued| + i, Firing, drafts[i]))
            && t.jobs[w] == Storing(t.issued[|s.issued|..])
            && s.pool.queue != [] && t.pool.started == s.pool.started + [s.pool.queue[0]]
            && t.pool.queue == s.pool.queue[1..]
            && (t.stored, t.failed, t.bus) == (s.stored, s.failed, s.bus)
  {
    hide Produces;
    assert s.stored + [] == s.stored && s.failed + [] == s.failed;
  }

  /** No other step issues an alert. */
  lemma {:induction false} OnlyStartsIssue(s: App, step: Step)
    requires Enabled(s, step) && !(step.OfWorker? && step.work.Start?)
    ensures Apply(s, step).issued == s.issued && Apply(s, step).pool.started == s.pool.started
  {
    match step {
      case OfCollector(c, act) =>
        ActStartsNothing(c, s.collectors[c], s.pool, |s.received|, act);
        hide ActOf, CanAct;
      case OfWorker(w, act) =>
        WorkStartsNothing(s.config, w, s.jobs[w], s.pool, s.bus, |s.issued|, act);
        hide WorkOf, CanWork;
        assert s.issued + [] == s.issued;
      case OfBus(_) =>
        hide Bus.Apply, Bus.Enabled;
      case OfMain =>
        MainStartsNothing(s);
        hide AfterMain, MainEnabled;
    }
  }

  lemma {:induction false} ActStartsNothing(c: nat, col: Collector, pool: Pool.Pool, serial: nat, act: CollectorAct)
    requires CanAct(c, col, pool, act)
    ensures ActOf(c, col, pool, serial, act).pool.started == pool.started
  {
  }

  lemma {:induction false} WorkStartsNothing(config: Config, w: nat, job: Job, pool: Pool.Pool, bus: Bus.Bus,
                                             firstId: nat, act: WorkerAct)
    requires CanWork(config, w, job, pool, act) && !act.Start?
    ensures var e := WorkOf(config, w, job, pool, bus, firstId, act);
            e.pool.started == pool.started && e.issued == []
  {
    hide Produces, Bus.AfterPublish;
  }

  lemma {:induction false} MainStartsNothing(s: App)
    requires MainEnabled(s)
    ensures AfterMain(s).pool.started == s.pool.started && AfterMain(s).issued == s.issued
  {
  }

  lemma {:induction false} StepKeepsConfig(s: App, step: Step)
    requires Enabled(s, step)
    ensures Apply(s, step).config == s.config
  {
    hide ActOf, WorkOf, CanAct, CanWork, Pool.Apply, Pool.Enabled, Bus.Apply, Bus.Enabled;
  }

  ghost function Flatten(parts: seq<seq<Draft>>): seq<Draft> {
    if parts == [] then [] else parts[0] + Flatten(parts[1..])
  }

  /** What the evaluation of a task may yield, spelled out. */
  ghost predicate IsEvaluationOf(config: Config, work: Work, drafts: seq<Draft>) {
    match work
    case PodEvent(pod) =>
      drafts == PodDrafts(pod, config.restartThreshold, false) || drafts == PodDrafts(pod, config.restartThreshold, true)
    case NodeEvent(node) => drafts == NodeDrafts(node, node.conditions)
    case PodMetricsCheck => exists ms :: drafts == PodMetricDrafts(ms, config.thresholds)
    case NodeMetricsCheck => exists ms :: drafts == NodeMetricDrafts(ms, config.thresholds)
  }

  lemma {:induction false} ProducesEvaluation(config: Config, work: Work, drafts: seq<Draft>)
    requires Produces(config, work, drafts)
    ensures IsEvaluationOf(config, work, drafts)
  {
    hide PodDrafts, NodeDrafts, PodMetricDrafts, NodeMetricDrafts;
  }

  /** Over every run the alerts issued are, in order, the evaluations of the tasks started, one after the other: each task
      started is evaluated, and each alert comes from such an evaluation. */
  lemma {:induction false} EveryTaskIsEvaluated(s: App, steps: seq<Step>, t: App) returns (parts: seq<seq<Draft>>)
    requires Run(s, steps, t)
    ensures t.config == s.config && s.pool.started <= t.pool.started && s.issued <= t.issued
    ensures |parts| == |t.pool.started| - |s.pool.started|
    ensures Contents(t.issued) == Contents(s.issued) + Flatten(parts)
    ensures forall k :: 0 <= k < |parts| ==>
              IsEvaluationOf(s.config, t.pool.started[|s.pool.started| + k].work, parts[k])
    decreases |steps|
  {
    hide Apply, Enabled, IsEvaluationOf, Contents;
    if steps == [] {
      parts := [];
      assert Contents(s.issued) + [] == Contents(s.issued);
    } else {
      var step := steps[0];
      var next := Apply(s, step);
      StepKeepsConfig(s, step);
      var rest := EveryTaskIsEvaluated(next, steps[1..], t);
      if step.OfWorker? && step.work.Start? {
        StartIsEvaluated(s, step.w, step.work.drafts);
        parts := [step.work.drafts] + rest;
        assert parts[1..] == rest;
        hide Run, Flatten;
        assert forall k :: 0 < k < |parts| ==> parts[k] == rest[k - 1];
        assert Contents(s.issued) + step.work.drafts + Flatten(rest) ==
               Contents(s.issued) + (step.work.drafts + Flatten(rest));
      } else {
        OnlyStartsIssue(s, step);
        parts := rest;
      }
    }
  }

  lemma {:induction false} StartIsEvaluated(s: App, w: nat, drafts: seq<Draft>)
    requires Enabled(s, OfWorker(w, Start(drafts)))
    ensures var t := Apply(s, OfWorker(w, Start(drafts)));
            && s.issued <= t.issued && Contents(t.issued) == Contents(s.issued) + drafts
            && |t.pool.started| == |s.pool.started| + 1 && s.pool.started <= t.pool.started
            && IsEvaluationOf(s.config, t.pool.started[|s.pool.started|].work, drafts)
  {
    hide Apply, Enabled, IsEvaluationOf, Produces;
    StartProduces(s, w, drafts);
    ProducesEvaluation(s.config, s.pool.queue[0].work, drafts);
    StartIssuesItsDrafts(s, w, drafts);
    var t := Apply(s, OfWorker(w, Start(drafts)));
    assert Contents(t.issued) == Contents(s.issued) + drafts;
  }

  lemma {:induction false} StartProduces(s: App, w: nat, drafts: seq<Draft>)
    requires Enabled(s, OfWorker(w, Start(drafts)))
    ensures s.pool.queue != [] && Produces(s.config, s.pool.queue[0].work, drafts)
  {
    hide Produces;
  }

  /** From the start of the program, spelled out: the alerts issued are the evaluations of the started tasks. */
  lemma {:induction false} IssuedAreEvaluations(config: Config, observers: nat, steps: seq<Step>, t: App)
    returns (parts: seq<seq<Draft>>)
    requires Run(Initial(config, observers), steps, t)
    ensures |parts| == |t.pool.started| && Contents(t.issued) == Flatten(parts)
    ensures forall k :: 0 <= k < |parts| ==> IsEvaluationOf(config, t.pool.started[k].work, parts[k])
  {
    hide Initial, Run, IsEvaluationOf, Flatten;
    NothingIsIssuedAtFirst(config, observers);
    parts := EveryTaskIsEvaluated(Initial(config, observers), steps, t);
    assert Contents([]) == [] && [] + Flatten(parts) == Flatten(parts);
  }

  lemma {:induction false} NothingIsIssuedAtFirst(config: Config, observers: nat)
    ensures var s := Initial(config, observers); s.config == config && s.issued == [] && s.pool.started == []
  {
  }

  // ----- What one worker does with its alerts -----

  /** `Issues`: alerts issued to the worker. `Settles`: those of which `Create` returned. `Stores`: those it put into the
      store. `Publishes`: those it published. */
  datatype AlertDeed = Issues | Settles | Stores | Publishes

  ghost function AlertDeedAt(s: App, step: Step, w: nat, deed: AlertDeed): seq<Alert>
    requires Enabled(s, step)
  {
    var t := Apply(s, step);
    if !step.OfWorker? || step.w != w then []
    else match deed
      case Issues => Since(s.issued, t.issued)
      case Settles => Since(s.stored, t.stored) + Since(s.failed, t.failed)
      case Stores => Since(s.stored, t.stored)
      case Publishes => Since(s.bus.published, t.bus.published)
  }

  ghost function AlertHistory(s: App, steps: seq<Step>, w: nat, deed: AlertDeed): seq<Alert>
    decreases |steps|
  {
    if steps == [] || !Enabled(s, steps[0]) then []
    else AlertDeedAt(s, steps[0], w, deed) + AlertHistory(Apply(s, steps[0]), steps[1..], w, deed)
  }

  ghost function ToStore(job: Job): seq<Alert> {
    if job.Idle? then [] else job.todo
  }

  ghost function ToPublish(job: Job): seq<Alert> {
    if job.Publishing? then [job.alert] else []
  }

  lemma {:induction false} WorkerActInOrder(config: Config, w: nat, job: Job, pool: Pool.Pool, bus: Bus.Bus, firstId: nat,
                                            act: WorkerAct)
    requires CanWork(config, w, job, pool, act)
    ensures var e := WorkOf(config, w, job, pool, bus, firstId, act);
            && ToStore(job) + e.issued == e.stored + e.failed + ToStore(e.job)
            && bus.published <= e.bus.published
            && ToPublish(job) + e.stored == Since(bus.published, e.bus.published) + ToPublish(e.job)
  {
    hide Produces, Pool.Enabled, Pool.Apply;
    match act {
      case Publish =>
        assert Bus.AfterPublish(bus, job.alert).published == bus.published + [job.alert];
        SinceAppend(bus.published, [job.alert]);
      case _ =>
        SinceAppend(bus.published, []);
    }
  }

  lemma {:induction false} OwnStepInOrder(s: App, w: nat, act: WorkerAct)
    requires Enabled(s, OfWorker(w, act))
    ensures var t := Apply(s, OfWorker(w, act));
            && |t.jobs| == |s.jobs|
            && ToStore(s.jobs[w]) + Since(s.issued, t.issued) ==
               Since(s.stored, t.stored) + Since(s.failed, t.failed) + ToStore(t.jobs[w])
            && ToPublish(s.jobs[w]) + Since(s.stored, t.stored) ==
               Since(s.bus.published, t.bus.published) + ToPublish(t.jobs[w])
  {
    var e := WorkOf(s.config, w, s.jobs[w], s.pool, s.bus, |s.issued|, act);
    WorkerActInOrder(s.config, w, s.jobs[w], s.pool, s.bus, |s.issued|, act);
    hide CanWork, WorkOf, Since, ToStore, ToPublish;
    SinceAppend(s.issued, e.issued);
    SinceAppend(s.stored, e.stored);
    SinceAppend(s.failed, e.failed);
  }

  lemma {:induction false} StepStoresInOrder(s: App, step: Step, w: nat)
    requires Enabled(s, step) && w < |s.jobs|
    ensures var t := Apply(s, step);
            && |t.jobs| == |s.jobs|
            && ToStore(s.jobs[w]) + AlertDeedAt(s, step, w, Issues) ==
               AlertDeedAt(s, step, w, Settles) + ToStore(t.jobs[w])
            && ToPublish(s.jobs[w]) + AlertDeedAt(s, step, w, Stores) ==
               AlertDeedAt(s, step, w, Publishes) + ToPublish(t.jobs[w])
  {
    hide Enabled, Apply, ToStore, ToPublish, Since;
    if step.OfWorker? && step.w == w {
      OwnStepInOrder(s, w, step.work);
    } else {
      OthersKeepJob(s, step, w);
      assert [] + ToStore(s.jobs[w]) == ToStore(s.jobs[w]) + [];
      assert [] + ToPublish(s.jobs[w]) == ToPublish(s.jobs[w]) + [];
    }
  }

  lemma {:induction false} OthersKeepJob(s: App, step: Step, w: nat)
    requires Enabled(s, step) && w < |s.jobs| && !(step.OfWorker? && step.w == w)
    ensures |Apply(s, step).jobs| == |s.jobs| && Apply(s, step).jobs[w] == s.jobs[w]
  {
    match step {
      case OfMain =>
        MainFrame(s);
        hide Enabled, AfterMain;
      case _ =>
        hide ActOf, WorkOf, CanAct, CanWork, Bus.Apply;
    }
  }

  /** Every worker goes through its alerts in the order in which they were issued to it: those it has stored or failed to
      store, followed by those it still has to store. And it publishes those it stored, in order, all but the one it has
      just stored. */
  lemma {:induction false} WorkerKeepsOrder(s: App, steps: seq<Step>, t: App, w: nat)
    requires Run(s, steps, t) && w < |s.jobs|
    ensures |t.jobs| == |s.jobs|
    ensures ToStore(s.jobs[w]) + AlertHistory(s, steps, w, Issues) ==
            AlertHistory(s, steps, w, Settles) + ToStore(t.jobs[w])
    ensures ToPublish(s.jobs[w]) + AlertHistory(s, steps, w, Stores) ==
            AlertHistory(s, steps, w, Publishes) + ToPublish(t.jobs[w])
    decreases |steps|
  {
    hide Apply, AlertDeedAt, Enabled, ToStore, ToPublish;
    if steps != [] {
      var next, rest := Apply(s, steps[0]), steps[1..];
      StepStoresInOrder(s, steps[0], w);
      WorkerKeepsOrder(next, rest, t, w);
      Chain(ToStore(s.jobs[w]), AlertDeedAt(s, steps[0], w, Issues), AlertDeedAt(s, steps[0], w, Settles),
            ToStore(next.jobs[w]), AlertHistory(next, rest, w, Issues), AlertHistory(next, rest, w, Settles),
            ToStore(t.jobs[w]));
      Chain(ToPublish(s.jobs[w]), AlertDeedAt(s, steps[0], w, Stores), AlertDeedAt(s, steps[0], w, Publishes),
            ToPublish(next.jobs[w]), AlertHistory(next, rest, w, Stores), AlertHistory(next, rest, w, Publishes),
            ToPublish(t.jobs[w]));
    }
  }

  /** The same from the start of the program. */
  lemma {:induction false} AlertsKeepOrder(config: Config, observers: nat, steps: seq<Step>, t: App, w: nat)
    requires Run(Initial(config, observers), steps, t) && w < 5
    ensures |t.jobs| == 5
    ensures var s := Initial(config, observers);
            && AlertHistory(s, steps, w, Issues) == AlertHistory(s, steps, w, Settles) + ToStore(t.jobs[w])
            && AlertHistory(s, steps, w, Stores) == AlertHistory(s, steps, w, Publishes) + ToPublish(t.jobs[w])
  {
    var s := Initial(config, observers);
    assert s.jobs[w] == Idle && |s.jobs| == 5;
    WorkerKeepsOrder(s, steps, t, w);
    assert [] + AlertHistory(s, steps, w, Issues) == AlertHistory(s, steps, w, Issues);
    assert [] + AlertHistory(s, steps, w, Stores) == AlertHistory(s, steps, w, Stores);
    hide Inv, Run, AlertHistory, Initial;
  }

  /** A worker that publishes offers the alert it has just stored, and the bus drops it if and only if 200 wait. */
  lemma {:induction false} PublishDropsIffFull(s: App, w: nat)
    requires Reachable(s) && Enabled(s, OfWorker(w, Publish))
    ensures var t := Apply(s, OfWorker(w, Publish));
            var alert := s.jobs[w].alert;
            && t.bus.published == s.bus.published + [alert]
            && if |s.bus.buffer| == 200
               then t.bus.buffer == s.bus.buffer && t.bus.dropped == s.bus.dropped + [alert]
               else t.bus.buffer == s.bus.buffer + [alert] && t.bus.dropped == s.bus.dropped
  {
    ReachableInv(s);
    hide Gather, Pool.Inv, CollectorsOk, MainOk, JobsOk, TasksOk, AlertsOk, Bus.FannedOut;
  }

  // ----- Who is up when -----

  /** Everything that serves is there: the watchers, the three submitting goroutines, five workers and the dispatcher of
      the bus. */
  ghost predicate AllUp(s: App) {
    && |s.collectors| == 3
    && (forall c :: 0 <= c < 3 ==> !s.collectors[c].stage.Gone? && !s.collectors[c].stopChClosed)
    && s.collectors[PODS].watching && s.collectors[NODES].watching
    && |s.pool.workers| == 5 && (forall w :: 0 <= w < 5 ==> !s.pool.workers[w].Exited?)
    && !s.bus.dispatcher.Gone? && !s.bus.stopChClosed && !s.bus.ctxDone
    && !s.pool.stopped && !s.pool.stopChanClosed && !s.pool.queueClosed && !s.pool.ctxDone
  }

  lemma {:induction false} StepKeepsUp(s: App, step: Step)
    requires Enabled(s, step) && AllUp(s) && !step.OfMain? && |s.jobs| == |s.pool.workers|
    ensures AllUp(Apply(s, step))
  {
    match step {
      case OfCollector(c, act) =>
        ActKeepsUp(c, s.collectors[c], s.pool, |s.received|, act);
        hide ActOf, CanAct;
      case OfWorker(w, act) =>
        WorkKeepsUp(s.config, w, s.jobs[w], s.pool, s.bus, |s.issued|, act);
        hide WorkOf, CanWork;
      case OfBus(turn) =>
        assert !Bus.Apply(s.bus, turn).dispatcher.Gone? && !Bus.Apply(s.bus, turn).stopChClosed
               && !Bus.Apply(s.bus, turn).ctxDone;
        hide Bus.Apply, Bus.Enabled;
    }
  }

  lemma {:induction false} ActKeepsUp(c: nat, col: Collector, pool: Pool.Pool, serial: nat, act: CollectorAct)
    requires CanAct(c, col, pool, act) && !pool.ctxDone && !col.stopChClosed && !col.stage.Gone?
    ensures var e := ActOf(c, col, pool, serial, act);
            && !e.col.stage.Gone? && !e.col.stopChClosed && e.col.watching == col.watching
            && e.pool.workers == pool.workers && e.pool.stopped == pool.stopped && e.pool.ctxDone == pool.ctxDone
            && e.pool.stopChanClosed == pool.stopChanClosed && e.pool.queueClosed == pool.queueClosed
  {
  }

  lemma {:induction false} WorkKeepsUp(config: Config, w: nat, job: Job, pool: Pool.Pool, bus: Bus.Bus, firstId: nat,
                                       act: WorkerAct)
    requires CanWork(config, w, job, pool, act) && w < |pool.workers|
    requires !pool.queueClosed && !pool.stopChanClosed && !pool.ctxDone && !pool.workers[w].Exited?
    ensures var e := WorkOf(config, w, job, pool, bus, firstId, act);
            && |e.pool.workers| == |pool.workers| && e.pool.workers == pool.workers[w := e.pool.workers[w]]
            && !e.pool.workers[w].Exited?
            && e.pool.stopped == pool.stopped && e.pool.ctxDone == pool.ctxDone
            && e.pool.stopChanClosed == pool.stopChanClosed && e.pool.queueClosed == pool.queueClosed
            && e.bus.dispatcher == bus.dispatcher && e.bus.stopChClosed == bus.stopChClosed
            && e.bus.ctxDone == bus.ctxDone
  {
    hide Produces;
  }

  lemma {:induction false} ServingIsUp(s: App, steps: seq<Step>, t: App)
    requires Inv(s) && AllUp(s) && Run(s, steps, t) && s.mainPc.Serving? && t.mainPc.Serving?
    ensures AllUp(t)
    decreases |steps|
  {
    if steps != [] {
      var next := Apply(s, steps[0]);
      StepKeepsInv(s, steps[0]);
      if steps[0].OfMain? {
        NeverServesAgain(next, steps[1..], t);
      } else {
        assert Shape(s);
        hide Inv, AllUp;
        StepKeepsUp(s, steps[0]);
        ServingIsUp(next, steps[1..], t);
      }
    }
  }

  lemma {:induction false} NeverServesAgain(s: App, steps: seq<Step>, t: App)
    requires !s.mainPc.Serving? && Run(s, steps, t)
    ensures !t.mainPc.Serving?
    decreases |steps|
  {
    if steps != [] {
      hide ActOf, WorkOf, CanAct, CanWork, Pool.Apply, Pool.Enabled, Bus.Apply, Bus.Enabled;
      NeverServesAgain(Apply(s, steps[0]), steps[1..], t);
    }
  }

  /** Until the signal comes nothing leaves: in every reachable state in which `main` still serves, everything is up. */
  lemma {:induction false} NothingLeavesBeforeTheSignal(s: App)
    requires Reachable(s) && s.mainPc.Serving?
    ensures AllUp(s)
  {
    var config, observers, steps :| Run(Initial(config, observers), steps, s);
    InitialInv(config, observers);
    assert AllUp(Initial(config, observers));
    hide Inv, AllUp, Run, Initial;
    ServingIsUp(Initial(config, observers), steps, s);
  }

  /** The order of the shutdown, spelled out: the context is done from the signal on; the pool is stopped only when each
      collector's watcher and submitter have returned; the bus only after every worker has exited and the queue is closed;
      and the database is closed only after the dispatcher of the bus has returned. */
  lemma {:induction false} ShutdownGoesInOrder(s: App)
    requires Reachable(s)
    ensures s.pool.ctxDone <==> !s.mainPc.Serving?
    ensures s.pool.stopped ==>
              forall c :: 0 <= c < |s.collectors| ==> s.collectors[c].stage.Gone? && !s.collectors[c].watching
    ensures s.bus.stopChClosed ==>
              s.pool.queueClosed && forall w :: 0 <= w < |s.pool.workers| ==> s.pool.workers[w].Exited?
    ensures s.dbClosed ==> s.bus.stopChClosed && s.bus.dispatcher.Gone?
  {
    ReachableInv(s);
    hide Gather, TasksOk, AlertsOk, Bus.Inv, CollectorOk, JobsOk;
  }
}

/** Every schedule of the program gets to the end: it starts only so many tasks, it can take only so many steps, what
    the outside world adds on the way included, and it has steps left until the end is reached. */
module Progress {
  import opened Sums
  import opened Models
  import opened Application
  import opened Pipeline
  import opened Shutdown
  import Pool = WorkerPool
  import Bus = EventBus

  // ----- The work that is left -----

  /** Alerts of a job that may still reach the event bus. */
  ghost function Owed(job: Job): nat {
    match job
    case Idle => 0
    case Storing(todo) => |todo|
    case Publishing(_, todo) => |todo| + 1
  }

  ghost function AlertsOwed(s: App): nat {
    Sum(s.jobs, Owed) + |s.bus.buffer|
  }

  /** What the bus does with one alert: take it, notify each observer, and come back. */
  ghost function Fanout(bus: Bus.Bus): nat {
    |bus.notified| + 2
  }

  /** An upper bound on the steps the program can still take by itself. */
  ghost function Work(s: App): int {
    Sum(s.collectors, CollectorWork) + 2 * |s.pool.queue| + WorkersWork(s)
    + Fanout(s.bus) * AlertsOwed(s) + BusWork(s.bus.dispatcher) + MainLeft(s)
  }

  /** What a step adds to the work: a watch event, two metric checks, or the alerts a task turns out to raise. */
  ghost function Added(bus: Bus.Bus, step: Step): nat {
    match step
    case OfCollector(_, act) => if act.Watch? then 7 else if act.Tick? then 12 else 0
    case OfWorker(_, act) => if act.Start? then (Fanout(bus) + 2) * |act.drafts| else 0
    case _ => 0
  }

  /** The step pays for itself and for what it adds. */
  ghost predicate Pays(s: App, step: Step, t: App) {
    && Fanout(t.bus) == Fanout(s.bus)
    && Work(t) + (if FromOutside(step) then 0 else 1) <= Work(s) + Added(s.bus, step)
  }

  lemma {:induction false} CollectorActPays(c: nat, col: Collector, pool: Pool.Pool, serial: nat, act: CollectorAct)
    requires CanAct(c, col, pool, act) && c < |pool.submitters| && CollectorOk(col, pool.submitters[c])
    ensures var e := ActOf(c, col, pool, serial, act);
            && e.pool.workers == pool.workers && e.pool.stopPc == pool.stopPc
            && CollectorWork(e.col) + 2 * |e.pool.queue|
               + (if act.Watch? || act.Tick? then 0 else 1)
               <= CollectorWork(col) + 2 * |pool.queue|
                  + (if act.Watch? then 7 else if act.Tick? then 12 else 0)
  {
  }

  lemma {:induction false} CollectorPays(s: App, c: nat, act: CollectorAct)
    requires Inv(s) && Enabled(s, OfCollector(c, act))
    ensures Pays(s, OfCollector(c, act), AfterCollector(s, c, act))
  {
    var e := ActOf(c, s.collectors[c], s.pool, |s.received|, act);
    CollectorActPays(c, s.collectors[c], s.pool, |s.received|, act);
    SumUpdate(s.collectors, c, e.col, CollectorWork);
    hide Inv, Sum, CollectorWork, CanAct, ActOf, BusWork;
    var t := AfterCollector(s, c, act);
    SameMainLeft(s, t);
  }

  lemma {:induction false} WorkerActPays(config: Config, w: nat, job: Job, pool: Pool.Pool, bus: Bus.Bus, firstId: nat,
                                         act: WorkerAct)
    requires CanWork(config, w, job, pool, act) && w < |pool.workers|
    ensures var e := WorkOf(config, w, job, pool, bus, firstId, act);
            && e.pool.stopPc == pool.stopPc && e.bus.dispatcher == bus.dispatcher
            && e.bus.notified == bus.notified
            && |e.pool.workers| == |pool.workers| && e.pool.workers == pool.workers[w := e.pool.workers[w]]
            && Owed(e.job) + |e.bus.buffer| <= Owed(job) + |bus.buffer| + (if act.Start? then |act.drafts| else 0)
            && 2 * |e.pool.queue| + Pool.WorkerWeight(e.pool.workers[w]) + JobWork(e.job) + 1 <=
               2 * |pool.queue| + Pool.WorkerWeight(pool.workers[w]) + JobWork(job)
               + (if act.Start? then 2 * |act.drafts| else 0)
  {
    hide Produces;
    if act.Publish? {
      hide Pool.Enabled, Pool.Apply, Pool.AfterSend;
    } else if act.Start? || act.Finish? || act.Quit? {
      hide Bus.AfterPublish;
    } else {
      hide Pool.Enabled, Pool.Apply, Bus.AfterPublish;
    }
  }

  lemma {:induction false} AtMostTimes(k: nat, a: nat, b: nat, more: nat)
    requires a <= b + more
    ensures k * a <= k * b + k * more
  {
    assert k * (b + more - a) >= 0;
  }

  /** A worker's step, in terms of the sums over all workers. */
  lemma {:induction false} WorkerLevels(s: App, w: nat, act: WorkerAct)
    requires Shape(s) && Enabled(s, OfWorker(w, act))
    ensures var t := AfterWorker(s, w, act);
            var more := if act.Start? then |act.drafts| else 0;
            && t.collectors == s.collectors && t.mainPc == s.mainPc && t.pool.stopPc == s.pool.stopPc
            && t.bus.dispatcher == s.bus.dispatcher && t.bus.notified == s.bus.notified
            && AlertsOwed(t) <= AlertsOwed(s) + more
            && 2 * |t.pool.queue| + WorkersWork(t) + 1 <= 2 * |s.pool.queue| + WorkersWork(s) + 2 * more
  {
    var e := WorkOf(s.config, w, s.jobs[w], s.pool, s.bus, |s.issued|, act);
    WorkerActPays(s.config, w, s.jobs[w], s.pool, s.bus, |s.issued|, act);
    hide Sum, CanWork, WorkOf, Owed, JobWork, Pool.WorkerWeight;
    SumUpdate(s.pool.workers, w, e.pool.workers[w], Pool.WorkerWeight);
    SumUpdate(s.jobs, w, e.job, JobWork);
    SumUpdate(s.jobs, w, e.job, Owed);
  }

  lemma {:induction false} WorkerPays(s: App, w: nat, act: WorkerAct)
    requires Shape(s) && Enabled(s, OfWorker(w, act))
    ensures Pays(s, OfWorker(w, act), AfterWorker(s, w, act))
  {
    hide Shape, Sum, Enabled, AfterWorker, AlertsOwed, WorkersWork, BusWork, CollectorWork, MainLeft;
    WorkerLevels(s, w, act);
    var t := AfterWorker(s, w, act);
    SameMainLeft(s, t);
    AtMostTimes(Fanout(s.bus), AlertsOwed(t), AlertsOwed(s), if act.Start? then |act.drafts| else 0);
    assert Fanout(t.bus) == Fanout(s.bus);
    hide Fanout;
  }

  lemma {:induction false} SameMainLeft(s: App, t: App)
    requires t.mainPc == s.mainPc && t.pool.stopPc == s.pool.stopPc
    ensures MainLeft(t) == MainLeft(s)
  {
  }

  lemma {:induction false} BusTurnPays(bus: Bus.Bus, turn: Bus.Step, owed: nat)
    requires Bus.Enabled(bus, turn) && (turn.Receive? || turn.Notify? || turn.EndNotify? || turn.Leave?)
    ensures var after := Bus.Apply(bus, turn);
            && Fanout(after) == Fanout(bus)
            && Fanout(bus) * (owed + |after.buffer|) + BusWork(after.dispatcher) + 1 <=
               Fanout(bus) * (owed + |bus.buffer|) + BusWork(bus.dispatcher)
  {
    if turn.Receive? {
      assert Fanout(bus) * (owed + |bus.buffer| - 1) == Fanout(bus) * (owed + |bus.buffer|) - Fanout(bus);
    }
  }

  lemma {:induction false} BusPays(s: App, turn: Bus.Step)
    requires Inv(s) && Enabled(s, OfBus(turn))
    ensures Pays(s, OfBus(turn), Apply(s, OfBus(turn)))
  {
    BusTurnPays(s.bus, turn, Sum(s.jobs, Owed));
    var t := Apply(s, OfBus(turn));
    SameMainLeft(s, t);
    hide Inv, Sum, Bus.Apply, Bus.Enabled, Fanout, BusWork, MainLeft;
  }

  lemma {:induction false} StopChOfCollector(s: App, k: nat)
    requires k < |s.collectors|
    ensures Sum(s.collectors[k := s.collectors[k].(stopChClosed := true)], CollectorWork) ==
            Sum(s.collectors, CollectorWork)
  {
    SumUpdate(s.collectors, k, s.collectors[k].(stopChClosed := true), CollectorWork);
  }

  lemma {:induction false} MainPays(s: App)
    requires Inv(s) && Enabled(s, OfMain)
    ensures Pays(s, OfMain, AfterMain(s))
  {
    hide Gather, Pool.Inv, Bus.Inv, CollectorOk, JobsOk, TasksOk, AlertsOk, BusWork;
    MainGoesOn(s);
    MainFrame(s);
    if s.mainPc.Stopping? && !s.mainPc.signalled {
      StopChOfCollector(s, s.mainPc.k);
    }
    hide Inv, Sum, Enabled, AfterMain, MainLeft, CollectorWork, BusWork;
  }

  lemma {:induction false} StepPays(s: App, step: Step)
    requires Inv(s) && Enabled(s, step)
    ensures Pays(s, step, Apply(s, step))
  {
    assert Shape(s);
    hide Inv, Pays;
    match step {
      case OfCollector(c, act) => CollectorPays(s, c, act);
      case OfWorker(w, act) => WorkerPays(s, w, act);
      case OfBus(turn) => BusPays(s, turn);
      case OfMain => MainPays(s);
    }
  }

  lemma {:induction false} WorkIsNotNegative(s: App)
    requires Inv(s)
    ensures Work(s) >= 0
  {
    hide Sum, Gather, Pool.Inv, CollectorsOk, JobsOk, TasksOk, AlertsOk;
    assert BusWork(s.bus.dispatcher) >= 0;
    assert MainLeft(s) >= 0;
    assert Fanout(s.bus) * AlertsOwed(s) >= 0;
  }

  // ----- Every schedule -----

  ghost function OwnSteps(steps: seq<Step>): nat {
    if steps == [] then 0 else (if FromOutside(steps[0]) then 0 else 1) + OwnSteps(steps[1..])
  }

  ghost function AllAdded(bus: Bus.Bus, steps: seq<Step>): nat {
    if steps == [] then 0 else Added(bus, steps[0]) + AllAdded(bus, steps[1..])
  }

  lemma {:induction false} SameFanoutAddsTheSame(b: Bus.Bus, c: Bus.Bus, steps: seq<Step>)
    requires Fanout(b) == Fanout(c)
    ensures AllAdded(b, steps) == AllAdded(c, steps)
  {
    if steps != [] {
      SameFanoutAddsTheSame(b, c, steps[1..]);
    }
  }

  lemma {:induction false} RunPays(s: App, steps: seq<Step>, t: App)
    requires Inv(s) && Run(s, steps, t)
    ensures Inv(t) && OwnSteps(steps) + Work(t) <= Work(s) + AllAdded(s.bus, steps)
    decreases |steps|
  {
    if steps != [] {
      var next := Apply(s, steps[0]);
      StepPays(s, steps[0]);
      StepKeepsInv(s, steps[0]);
      hide Inv, Work, Added, Apply, Enabled;
      RunPays(next, steps[1..], t);
      SameFanoutAddsTheSame(s.bus, next.bus, steps[1..]);
    }
  }

  // ----- How many tasks can still start -----

  ghost function Pending(col: Collector): nat {
    |col.chan| + |col.todo|
  }

  ghost function TasksLeft(s: App): nat {
    |s.pool.queue| + Sum(s.collectors, Pending)
  }

  /** Tasks that a step brings in from outside. */
  ghost function Brings(step: Step): nat {
    if step.OfCollector? && step.act.Watch? then 1
    else if step.OfCollector? && step.act.Tick? then 2
    else 0
  }

  ghost predicate StartsTask(step: Step) {
    step.OfWorker? && step.work.Start?
  }

  ghost function Arrivals(steps: seq<Step>): nat {
    if steps == [] then 0 else Brings(steps[0]) + Arrivals(steps[1..])
  }

  ghost function Starts(steps: seq<Step>): nat {
    if steps == [] then 0 else (if StartsTask(steps[0]) then 1 else 0) + Starts(steps[1..])
  }

  lemma {:induction false} CollectorActMovesTasks(c: nat, col: Collector, pool: Pool.Pool, serial: nat,
                                                  act: CollectorAct)
    requires CanAct(c, col, pool, act) && c < |pool.submitters| && CollectorOk(col, pool.submitters[c])
    ensures var e := ActOf(c, col, pool, serial, act);
            Pending(e.col) + |e.pool.queue| <=
            Pending(col) + |pool.queue| + Brings(OfCollector(c, act))
  {
  }

  lemma {:induction false} WorkerActTakesTasks(config: Config, w: nat, job: Job, pool: Pool.Pool, bus: Bus.Bus,
                                               firstId: nat, act: WorkerAct)
    requires CanWork(config, w, job, pool, act)
    ensures var e := WorkOf(config, w, job, pool, bus, firstId, act);
            |e.pool.queue| + (if act.Start? then 1 else 0) <= |pool.queue|
  {
    hide Produces, Bus.AfterPublish;
  }

  lemma {:induction false} StepMovesTasks(s: App, step: Step)
    requires Inv(s) && Enabled(s, step)
    ensures TasksLeft(Apply(s, step)) + (if StartsTask(step) then 1 else 0) <= TasksLeft(s) + Brings(step)
  {
    match step {
      case OfCollector(c, act) =>
        var e := ActOf(c, s.collectors[c], s.pool, |s.received|, act);
        CollectorActMovesTasks(c, s.collectors[c], s.pool, |s.received|, act);
        SumUpdate(s.collectors, c, e.col, Pending);
        hide Inv, Sum, Pending, CanAct, ActOf;
      case OfWorker(w, act) =>
        WorkerActTakesTasks(s.config, w, s.jobs[w], s.pool, s.bus, |s.issued|, act);
        hide Inv, Sum, CanWork, WorkOf;
      case OfBus(_) =>
        hide Inv, Sum, Bus.Apply, Bus.Enabled;
      case OfMain =>
        MainFrame(s);
        if s.mainPc.Stopping? && !s.mainPc.signalled {
          SumUpdate(s.collectors, s.mainPc.k, s.collectors[s.mainPc.k].(stopChClosed := true), Pending);
        }
        hide Inv, Sum, AfterMain, MainEnabled;
    }
  }

  /** Tasks started plus tasks left never exceed the tasks at the start plus those that arrived. */
  lemma {:induction false} RunMovesTasks(s: App, steps: seq<Step>, t: App)
    requires Inv(s) && Run(s, steps, t)
    ensures Starts(steps) + TasksLeft(t) <= TasksLeft(s) + Arrivals(steps)
    decreases |steps|
  {
    if steps != [] {
      StepMovesTasks(s, steps[0]);
      StepKeepsInv(s, steps[0]);
      hide Inv, TasksLeft, StartsTask, Brings, Apply, Enabled;
      RunMovesTasks(Apply(s, steps[0]), steps[1..], t);
    }
  }

  // ----- The main results -----

  /** No task of the run turns out to raise more than this many alerts. */
  ghost predicate RaisesAtMost(steps: seq<Step>, most: nat) {
    forall i :: 0 <= i < |steps| && StartsTask(steps[i]) ==> |steps[i].work.drafts| <= most
  }

  ghost function CostOfTask(bus: Bus.Bus, most: nat): nat {
    (Fanout(bus) + 2) * most
  }

  lemma {:induction false} AddedIsBounded(bus: Bus.Bus, steps: seq<Step>, most: nat)
    requires RaisesAtMost(steps, most)
    ensures AllAdded(bus, steps) <= 7 * Arrivals(steps) + CostOfTask(bus, most) * Starts(steps)
  {
    if steps != [] {
      var rest := steps[1..];
      assert forall i :: 0 <= i < |rest| ==> rest[i] == steps[i + 1];
      AddedIsBounded(bus, rest, most);
      var cost := CostOfTask(bus, most);
      if StartsTask(steps[0]) {
        AtMostTimes(Fanout(bus) + 2, |steps[0].work.drafts|, most, 0);
        assert Added(bus, steps[0]) <= cost;
        assert Starts(steps) == 1 + Starts(rest) && Arrivals(steps) == Arrivals(rest);
        assert cost * (1 + Starts(rest)) == cost + cost * Starts(rest);
      } else {
        assert Starts(steps) == Starts(rest);
        assert Added(bus, steps[0]) <= 7 * Brings(steps[0]);
      }
    }
  }

  lemma {:induction false} ScheduleIsBoundedBy(s: App, steps: seq<Step>, t: App, most: nat)
    requires Inv(s) && Run(s, steps, t) && RaisesAtMost(steps, most)
    ensures OwnSteps(steps) <=
            Work(s) + 7 * Arrivals(steps) + CostOfTask(s.bus, most) * (TasksLeft(s) + Arrivals(steps))
  {
    hide *;
    RunPays(s, steps, t);
    WorkIsNotNegative(t);
    RunMovesTasks(s, steps, t);
    AddedIsBounded(s.bus, steps, most);
    AtMostTimes(CostOfTask(s.bus, most), Starts(steps), TasksLeft(s) + Arrivals(steps), 0);
  }

  /** No schedule starts more tasks than were there or arrived, nor takes more steps of the program's own than the
      work at the start, seven for each arrival and, for each of those tasks, what the bus does with its alerts. */
  lemma {:induction false} EveryScheduleIsBounded(s: App, steps: seq<Step>, t: App)
    requires Reachable(s) && Run(s, steps, t)
    ensures Starts(steps) + TasksLeft(t) <= TasksLeft(s) + Arrivals(steps)
    ensures OwnSteps(steps) <= Work(s) + AllAdded(s.bus, steps)
    ensures forall most: nat :: RaisesAtMost(steps, most) ==>
              OwnSteps(steps) <=
              Work(s) + 7 * Arrivals(steps) + CostOfTask(s.bus, most) * (TasksLeft(s) + Arrivals(steps))
  {
    hide *;
    ReachableInv(s);
    RunPays(s, steps, t);
    WorkIsNotNegative(t);
    RunMovesTasks(s, steps, t);
    forall most: nat | RaisesAtMost(steps, most)
      ensures OwnSteps(steps) <=
              Work(s) + 7 * Arrivals(steps) + CostOfTask(s.bus, most) * (TasksLeft(s) + Arrivals(steps))
    {
      ScheduleIsBoundedBy(s, steps, t, most);
    }
  }

  lemma {:induction false} SilenceBringsNothing(steps: seq<Step>)
    requires forall i :: 0 <= i < |steps| ==> !FromOutside(steps[i])
    ensures Arrivals(steps) == 0 && OwnSteps(steps) == |steps|
  {
    if steps != [] {
      assert forall i :: 0 <= i < |steps| - 1 ==> steps[1..][i] == steps[i + 1];
      SilenceBringsNothing(steps[1..]);
    }
  }

  /** Once the outside world has fallen silent the whole length of a schedule is bounded by the state it starts
      from and by how many alerts one task raises. */
  lemma {:induction false} SilentScheduleIsBounded(s: App, steps: seq<Step>, t: App, most: nat)
    requires Reachable(s) && Run(s, steps, t) && RaisesAtMost(steps, most)
    requires forall i :: 0 <= i < |steps| ==> !FromOutside(steps[i])
    ensures Starts(steps) <= TasksLeft(s)
    ensures |steps| <= Work(s) + CostOfTask(s.bus, most) * TasksLeft(s)
  {
    hide *;
    SilenceBringsNothing(steps);
    EveryScheduleIsBounded(s, steps, t);
  }

  /** A schedule that goes on until the program has no step of its own left has taken `main` to its end: the
      database is closed and everything is joined. */
  lemma {:induction false} EveryScheduleEndsDone(s: App, steps: seq<Step>, t: App)
    requires Reachable(s) && Run(s, steps, t)
    requires forall step :: Enabled(t, step) ==> FromOutside(step)
    ensures t.mainPc.Done? && t.dbClosed
    ensures OwnSteps(steps) <= Work(s) + AllAdded(s.bus, steps)
  {
    EveryScheduleIsBounded(s, steps, t);
    ReachableRun(s, steps, t);
    ReachableInv(t);
    if !t.mainPc.Done? {
      var step := ShutdownIsNeverStuck(t);
    }
  }
}

/** The worker pool as a step system: any number of submitters and workers, and one effective call of `Stop`.
    `Submit` takes two steps (the check of `stopped`, then the send), `Stop` takes four. Each step is what one
    goroutine does between two points where the scheduler may switch. */
module WorkerPool {
  import opened Sums
  import opened Tasks

  datatype Submission = Outside | Admitted(task: Task)

  datatype Worker = Waiting | Executing(task: Task) | Exited

  datatype StopPc = NotCalled | FlagSet | Signalled | WorkersJoined | Returned

  /** `accepted`, `started` and `finished` record the history of the task queue. */
  datatype Pool = Pool(
    capacity: nat,
    queue: seq<Task>,
    queueClosed: bool,
    stopped: bool,
    stopChanClosed: bool,
    ctxDone: bool,
    submitters: seq<Submission>,
    workers: seq<Worker>,
    stopPc: StopPc,
    panicked: bool,
    accepted: seq<Task>,
    started: seq<Task>,
    finished: seq<Task>)

  datatype Step =
    | Admit(i: nat, task: Task)   // Submit: `stopped` is false
    | Refuse(i: nat)           // Submit: `stopped` is true
    | Send(i: nat)             // Submit: send, or give up when the queue is full
    | Receive(w: nat)
    | Complete(w: nat)
    | QuitOnClosed(w: nat)
    | QuitOnStop(w: nat)
    | QuitOnCancel(w: nat)
    | StopSetFlag
    | StopSignal
    | StopJoin
    | StopCloseQueue
    | StopAgain                // a second Stop returns at once
    | Cancel                   // the context is cancelled

  function Initial(workerCount: int, queueSize: int, submitters: nat): Pool {
    Pool(if queueSize <= 0 then 100 else queueSize, [], false, false, false, false,
         seq(submitters, _ => Outside), seq(if workerCount <= 0 then 1 else workerCount, _ => Waiting),
         NotCalled, false, [], [], [])
  }

  ghost predicate AllExited(workers: seq<Worker>) {
    forall w :: 0 <= w < |workers| ==> workers[w].Exited?
  }

  /** After a panic the process is gone and nothing steps. */
  ghost predicate Enabled(p: Pool, step: Step) {
    && !p.panicked
    && match step
       case Admit(i, _) => i < |p.submitters| && p.submitters[i].Outside? && !p.stopped
       case Refuse(i) => i < |p.submitters| && p.submitters[i].Outside? && p.stopped
       case Send(i) => i < |p.submitters| && p.submitters[i].Admitted?
       case Receive(w) => w < |p.workers| && p.workers[w].Waiting? && p.queue != []
       case Complete(w) => w < |p.workers| && p.workers[w].Executing?
       case QuitOnClosed(w) => w < |p.workers| && p.workers[w].Waiting? && p.queueClosed && p.queue == []
       case QuitOnStop(w) => w < |p.workers| && p.workers[w].Waiting? && p.stopChanClosed
       case QuitOnCancel(w) => w < |p.workers| && p.workers[w].Waiting? && p.ctxDone
       case StopSetFlag => !p.stopped
       case StopSignal => p.stopPc.FlagSet?
       case StopJoin => p.stopPc.Signalled? && AllExited(p.workers)
       case StopCloseQueue => p.stopPc.WorkersJoined?
       case StopAgain => p.stopped
       case Cancel => true
  }

  /** A send on a closed channel panics, even inside a select with a default case. */
  function AfterSend(p: Pool, i: nat): Pool
    requires i < |p.submitters| && p.submitters[i].Admitted?
  {
    var task := p.submitters[i].task;
    var back := p.submitters[i := Outside];
    if p.queueClosed then p.(submitters := back, panicked := true)
    else if |p.queue| < p.capacity then
      p.(submitters := back, queue := p.queue + [task], accepted := p.accepted + [task])
    else p.(submitters := back)
  }

  ghost function Apply(p: Pool, step: Step): Pool
    requires Enabled(p, step)
  {
    match step
    case Admit(i, task) => p.(submitters := p.submitters[i := Admitted(task)])
    case Refuse(_) => p
    case Send(i) => AfterSend(p, i)
    case Receive(w) =>
      p.(queue := p.queue[1..], started := p.started + [p.queue[0]],
         workers := p.workers[w := Executing(p.queue[0])])
    case Complete(w) =>
      p.(finished := p.finished + [p.workers[w].task], workers := p.workers[w := Waiting])
    case QuitOnClosed(w) => p.(workers := p.workers[w := Exited])
    case QuitOnStop(w) => p.(workers := p.workers[w := Exited])
    case QuitOnCancel(w) => p.(workers := p.workers[w := Exited])
    case StopSetFlag => p.(stopped := true, stopPc := FlagSet)
    case StopSignal => p.(stopChanClosed := true, stopPc := Signalled)
    case StopJoin => p.(stopPc := WorkersJoined)
    case StopCloseQueue => p.(queueClosed := true, stopPc := Returned)
    case StopAgain => p
    case Cancel => p.(ctxDone := true)
  }

  ghost predicate Run(p: Pool, steps: seq<Step>, q: Pool)
    decreases |steps|
  {
    if steps == [] then p == q
    else Enabled(p, steps[0]) && Run(Apply(p, steps[0]), steps[1..], q)
  }

  // ----- Conservation, order and the state after Stop -----

  ghost function InHand(w: Worker): multiset<Task> {
    if w.Executing? then multiset{w.task} else multiset{}
  }

  ghost predicate Inv(p: Pool) {
    && |p.queue| <= p.capacity
    && p.accepted == p.started + p.queue
    && multiset(p.started) == multiset(p.finished) + Gather(p.workers, InHand)
    && (p.stopped <==> !p.stopPc.NotCalled?)
    && (p.stopChanClosed <==> p.stopPc.Signalled? || p.stopPc.WorkersJoined? || p.stopPc.Returned?)
    && (p.queueClosed <==> p.stopPc.Returned?)
    && (p.stopPc.WorkersJoined? || p.stopPc.Returned? ==> AllExited(p.workers))
  }

  lemma {:induction false} InitialInv(workerCount: int, queueSize: int, submitters: nat)
    ensures Inv(Initial(workerCount, queueSize, submitters))
  {
    var p := Initial(workerCount, queueSize, submitters);
    GatherEmpty(p.workers, InHand);
  }

  lemma {:induction false} MoveHead(done: seq<Task>, queue: seq<Task>)
    requires queue != []
    ensures done + queue == done + [queue[0]] + queue[1..]
    ensures multiset(done + [queue[0]]) == multiset(done) + multiset{queue[0]}
  {
  }

  lemma {:induction false} ReceiveKeepsInv(p: Pool, w: nat)
    requires Inv(p) && Enabled(p, Receive(w))
    ensures Inv(Apply(p, Receive(w)))
  {
    var task := p.queue[0];
    GatherUpdate(p.workers, w, Executing(task), InHand);
    assert Gather(p.workers[w := Executing(task)], InHand) == Gather(p.workers, InHand) + multiset{task};
    MoveHead(p.started, p.queue);
    hide Gather;
  }

  lemma {:induction false} CompleteKeepsInv(p: Pool, w: nat)
    requires Inv(p) && Enabled(p, Complete(w))
    ensures Inv(Apply(p, Complete(w)))
  {
    var task := p.workers[w].task;
    GatherUpdate(p.workers, w, Waiting, InHand);
    assert Gather(p.workers[w := Waiting], InHand) + multiset{task} == Gather(p.workers, InHand);
    assert multiset(p.finished + [task]) == multiset(p.finished) + multiset{task};
  }

  lemma {:induction false} QuitKeepsInv(p: Pool, w: nat)
    requires Inv(p) && w < |p.workers| && p.workers[w].Waiting?
    ensures Inv(p.(workers := p.workers[w := Exited]))
  {
    GatherUpdate(p.workers, w, Exited, InHand);
    assert InHand(p.workers[w]) == multiset{} == InHand(Exited);
    assert Gather(p.workers[w := Exited], InHand) == Gather(p.workers, InHand);
  }

  lemma {:induction false} SendKeepsInv(p: Pool, i: nat)
    requires Inv(p) && Enabled(p, Send(i))
    ensures Inv(AfterSend(p, i))
  {
    var task := p.submitters[i].task;
    assert p.accepted + [task] == p.started + (p.queue + [task]);
  }

  lemma {:induction false} StepKeepsInv(p: Pool, step: Step)
    requires Inv(p) && Enabled(p, step)
    ensures Inv(Apply(p, step))
  {
    match step {
      case Send(i) => SendKeepsInv(p, i);
      case Receive(w) => ReceiveKeepsInv(p, w);
      case Complete(w) => CompleteKeepsInv(p, w);
      case QuitOnClosed(w) => QuitKeepsInv(p, w);
      case QuitOnStop(w) => QuitKeepsInv(p, w);
      case QuitOnCancel(w) => QuitKeepsInv(p, w);
      case _ => assert Inv(Apply(p, step));
    }
    hide Inv;
  }

  /** In every reachable state the queue is within its capacity, the accepted tasks are the started ones
      followed by the queue, and each started task is finished or in one worker's hands. */
  lemma {:induction false} RunKeepsInv(p: Pool, steps: seq<Step>, q: Pool)
    requires Inv(p) && Run(p, steps, q)
    ensures Inv(q)
    decreases |steps|
  {
    if steps != [] {
      StepKeepsInv(p, steps[0]);
      RunKeepsInv(Apply(p, steps[0]), steps[1..], q);
    }
  }

  /** The same from the start, spelled out. */
  lemma {:induction false} EveryRunIsAccounted(workerCount: int, queueSize: int, submitters: nat, steps: seq<Step>,
                                               q: Pool)
    requires Run(Initial(workerCount, queueSize, submitters), steps, q)
    ensures |q.queue| <= q.capacity
    ensures q.accepted == q.started + q.queue
    ensures multiset(q.started) == multiset(q.finished) + Gather(q.workers, InHand)
    ensures q.queueClosed ==> AllExited(q.workers)
  {
    InitialInv(workerCount, queueSize, submitters);
    RunKeepsInv(Initial(workerCount, queueSize, submitters), steps, q);
  }

  /** When `Stop` returns, no worker is live, what started has finished, and the leftover queue is
      exactly what never ran. */
  lemma {:induction false} StopReturnsQuiet(workerCount: int, queueSize: int, submitters: nat, steps: seq<Step>,
                                            q: Pool)
    requires Run(Initial(workerCount, queueSize, submitters), steps, q)
    requires q.stopPc.Returned?
    ensures AllExited(q.workers)
    ensures multiset(q.finished) == multiset(q.started)
    ensures q.accepted == q.started + q.queue
  {
    InitialInv(workerCount, queueSize, submitters);
    RunKeepsInv(Initial(workerCount, queueSize, submitters), steps, q);
    GatherEmpty(q.workers, InHand);
  }

  /** From then on nothing is queued, started or finished any more. */
  lemma {:induction false} NothingRunsAfterStop(p: Pool, steps: seq<Step>, q: Pool)
    requires Inv(p) && p.stopPc.Returned? && Run(p, steps, q)
    ensures q.stopPc.Returned?
    ensures (q.queue, q.accepted, q.started, q.finished) == (p.queue, p.accepted, p.started, p.finished)
    decreases |steps|
  {
    if steps != [] {
      StepKeepsInv(p, steps[0]);
      NothingRunsAfterStop(Apply(p, steps[0]), steps[1..], q);
    }
  }

  // ----- Stop terminates on every schedule -----

  ghost function SubmissionWeight(s: Submission): nat {
    if s.Admitted? then 3 else 0
  }

  ghost function WorkerWeight(w: Worker): nat {
    match w
    case Waiting => 1
    case Executing(_) => 2
    case Exited => 0
  }

  ghost function StopWork(pc: StopPc): nat {
    match pc
    case NotCalled => 4
    case FlagSet => 3
    case Signalled => 2
    case WorkersJoined => 1
    case Returned => 0
  }

  ghost function Measure(p: Pool): nat {
    Sum(p.submitters, SubmissionWeight) + 2 * |p.queue| + Sum(p.workers, WorkerWeight) + StopWork(p.stopPc)
  }

  /** The steps that get work done; the others only observe that the pool is stopped or cancelled. */
  ghost predicate Productive(step: Step) {
    !(step.Refuse? || step.StopAgain? || step.Cancel?)
  }

  ghost function ProductiveSteps(steps: seq<Step>): nat {
    if steps == [] then 0
    else (if Productive(steps[0]) then 1 else 0) + ProductiveSteps(steps[1..])
  }

  lemma {:induction false} StepLowersMeasure(p: Pool, step: Step)
    requires Inv(p) && p.stopped && Enabled(p, step)
    ensures Apply(p, step).stopped
    ensures Measure(Apply(p, step)) + (if Productive(step) then 1 else 0) <= Measure(p)
  {
    hide Sum, Gather;
    match step {
      case Send(i) => SumUpdate(p.submitters, i, Outside, SubmissionWeight);
      case Receive(w) => SumUpdate(p.workers, w, Executing(p.queue[0]), WorkerWeight);
      case Complete(w) => SumUpdate(p.workers, w, Waiting, WorkerWeight);
      case QuitOnClosed(w) => SumUpdate(p.workers, w, Exited, WorkerWeight);
      case QuitOnStop(w) => SumUpdate(p.workers, w, Exited, WorkerWeight);
      case QuitOnCancel(w) => SumUpdate(p.workers, w, Exited, WorkerWeight);
      case _ =>
    }
  }

  /** Once `stopped` is set, no schedule takes more productive steps than the measure allows. */
  lemma {:induction false} StopIsBounded(p: Pool, steps: seq<Step>, q: Pool)
    requires Inv(p) && p.stopped && Run(p, steps, q)
    ensures q.stopped
    ensures ProductiveSteps(steps) + Measure(q) <= Measure(p)
    decreases |steps|
  {
    if steps != [] {
      StepKeepsInv(p, steps[0]);
      StepLowersMeasure(p, steps[0]);
      StopIsBounded(Apply(p, steps[0]), steps[1..], q);
    }
  }

  /** The step a worker or the stopping goroutine can take while `Stop` has not returned. */
  lemma {:induction false} StopIsNeverStuck(p: Pool) returns (step: Step)
    requires Inv(p) && p.stopped && !p.panicked && !p.stopPc.Returned?
    ensures Enabled(p, step) && Productive(step) && !step.Send? && !step.Receive?
  {
    if p.stopPc.Signalled? && !AllExited(p.workers) {
      var w :| 0 <= w < |p.workers| && !p.workers[w].Exited?;
      step := if p.workers[w].Executing? then Complete(w) else QuitOnStop(w);
    } else {
      step := match p.stopPc
        case FlagSet => StopSignal
        case Signalled => StopJoin
        case _ => StopCloseQueue;
    }
  }

  /** A schedule that has no productive step left has let `Stop` return (or ended in a panic). */
  lemma {:induction false} StopAlwaysReturns(p: Pool, steps: seq<Step>, q: Pool)
    requires Inv(p) && p.stopped && Run(p, steps, q)
    requires forall step :: Enabled(q, step) ==> !Productive(step)
    ensures q.stopPc.Returned? || q.panicked
    ensures ProductiveSteps(steps) <= Measure(p)
  {
    RunKeepsInv(p, steps, q);
    StopIsBounded(p, steps, q);
    if !q.stopPc.Returned? && !q.panicked {
      var step := StopIsNeverStuck(q);
    }
  }

  // ----- When a send can hit the closed queue -----

  /** No submission is under way and none can begin. */
  ghost predicate Sealed(p: Pool) {
    && (forall i :: 0 <= i < |p.submitters| ==> p.submitters[i].Outside?)
    && (p.stopped || p.submitters == [])
  }

  lemma {:induction false} SealedNeverPanics(p: Pool, steps: seq<Step>, q: Pool)
    requires !p.panicked && Sealed(p) && Run(p, steps, q)
    ensures !q.panicked && Sealed(q)
    decreases |steps|
  {
    if steps != [] {
      SealedNeverPanics(Apply(p, steps[0]), steps[1..], q);
    }
  }

  lemma {:induction false} PrependStep(p: Pool, step: Step, steps: seq<Step>, q: Pool)
    requires Enabled(p, step) && Run(Apply(p, step), steps, q)
    ensures Run(p, [step] + steps, q)
  {
    assert ([step] + steps)[1..] == steps;
  }

  /** A schedule on which an admitted submitter sleeps until the queue is closed, and then sends. */
  lemma {:induction false} SleepingSubmitterPanics(p: Pool, i: nat) returns (steps: seq<Step>, q: Pool)
    requires Inv(p) && !p.panicked && i < |p.submitters| && p.submitters[i].Admitted?
    ensures Run(p, steps, q) && q.panicked
    decreases Sum(p.workers, WorkerWeight) + StopWork(p.stopPc)
  {
    var step: Step;
    if p.stopPc.NotCalled? {
      step := StopSetFlag;
    } else if p.stopPc.Returned? {
      step := Send(i);
    } else {
      step := StopIsNeverStuck(p);
    }
    StepKeepsInv(p, step);
    SleepingStep(p, i, step);
    hide Inv, Sum;
    if p.stopPc.Returned? {
      steps, q := [], Apply(p, step);
    } else {
      steps, q := SleepingSubmitterPanics(Apply(p, step), i);
    }
    PrependStep(p, step, steps, q);
    steps := [step] + steps;
  }

  lemma {:induction false} SleepingStep(p: Pool, i: nat, step: Step)
    requires Inv(p) && i < |p.submitters| && p.submitters[i].Admitted? && Enabled(p, step)
    requires step.StopSetFlag? || (p.stopped && Productive(step))
    ensures step == Send(i) && p.stopPc.Returned? ==> Apply(p, step).panicked
    ensures !step.Send? ==>
              && Apply(p, step).submitters == p.submitters && !Apply(p, step).panicked
              && (step.Receive? || Sum(Apply(p, step).workers, WorkerWeight) + StopWork(Apply(p, step).stopPc)
                                   < Sum(p.workers, WorkerWeight) + StopWork(p.stopPc))
  {
    hide Gather;
    match step {
      case Complete(w) => SumUpdate(p.workers, w, Waiting, WorkerWeight);
      case QuitOnClosed(w) => SumUpdate(p.workers, w, Exited, WorkerWeight);
      case QuitOnStop(w) => SumUpdate(p.workers, w, Exited, WorkerWeight);
      case QuitOnCancel(w) => SumUpdate(p.workers, w, Exited, WorkerWeight);
      case _ =>
    }
  }

  ghost predicate CanPanic(p: Pool) {
    exists steps, q :: Run(p, steps, q) && q.panicked
  }

  lemma {:induction false} AdmittedCanPanic(p: Pool, i: nat)
    requires Inv(p) && !p.panicked && i < |p.submitters| && p.submitters[i].Admitted?
    ensures CanPanic(p)
  {
    var steps, q := SleepingSubmitterPanics(p, i);
    assert Run(p, steps, q) && q.panicked;
  }

  lemma {:induction false} AdmittableCanPanic(p: Pool, task: Task)
    requires Inv(p) && !p.panicked && p.submitters != [] && p.submitters[0].Outside? && !p.stopped
    ensures CanPanic(p)
  {
    var step := Admit(0, task);
    StepKeepsInv(p, step);
    var steps, q := SleepingSubmitterPanics(Apply(p, step), 0);
    PrependStep(p, step, steps, q);
  }

  /** The pool by itself does not rule the panic out: it can happen exactly when a submitter is past its
      check, or could still get there. Whoever calls `Stop` has to have joined the submitters. */
  lemma {:induction false} PanicIsReachableIff(p: Pool, task: Task)
    requires Inv(p) && !p.panicked
    ensures CanPanic(p) <==> !Sealed(p)
  {
    if Sealed(p) {
      forall steps, q | Run(p, steps, q) ensures !q.panicked {
        SealedNeverPanics(p, steps, q);
      }
    } else if exists i :: 0 <= i < |p.submitters| && p.submitters[i].Admitted? {
      var i :| 0 <= i < |p.submitters| && p.submitters[i].Admitted?;
      AdmittedCanPanic(p, i);
    } else {
      AdmittableCanPanic(p, task);
    }
  }

  // ----- The pool object -----

  datatype SendOutcome = Queued | QueueFull | Panic

  /** The pool's fields. Each method is what one goroutine does in one go: the two halves of `Submit`, a worker's
      receive, and the four parts of `Stop`. */
  class WorkerPool {
    var taskQueue: seq<Task>
    const queueSize: nat
    const workerCount: nat
    var stopped: bool
    var stopChanClosed: bool
    var taskQueueClosed: bool
    ghost var model: Pool

    ghost predicate Valid()
      reads this
    {
      && Inv(model) && !model.panicked
      && model.queue == taskQueue && model.capacity == queueSize && |model.workers| == workerCount
      && model.stopped == stopped && model.stopChanClosed == stopChanClosed
      && model.queueClosed == taskQueueClosed
    }

    constructor (workerCount: int, queueSize: int, ghost submitters: nat)
      ensures Valid() && model == Initial(workerCount, queueSize, submitters)
      ensures this.workerCount == (if workerCount > 0 then workerCount else 1)
      ensures this.queueSize == (if queueSize > 0 then queueSize else 100)
    {
      InitialInv(workerCount, queueSize, submitters);
      var workers, size := workerCount, queueSize;
      if workers <= 0 {
        workers := 1;
      }
      if size <= 0 {
        size := 100;
      }
      this.workerCount := workers;
      this.queueSize := size;
      taskQueue := [];
      stopped, stopChanClosed, taskQueueClosed := false, false, false;
      model := Initial(workerCount, queueSize, submitters);
    }

    method SubmitCheck(ghost i: nat, task: Task) returns (admitted: bool)
      requires Valid() && i < |model.submitters| && model.submitters[i].Outside?
      modifies this`model
      ensures Valid() && admitted == !stopped
      ensures model == Apply(old(model), if admitted then Admit(i, task) else Refuse(i))
    {
      admitted := !stopped;
      StepKeepsInv(model, if admitted then Admit(i, task) else Refuse(i));
      model := Apply(model, if admitted then Admit(i, task) else Refuse(i));
    }

    /** A panic is reported exactly when the queue is closed; the object is of no use after it. */
    method SubmitSend(ghost i: nat, task: Task) returns (outcome: SendOutcome)
      requires Valid() && i < |model.submitters| && model.submitters[i] == Admitted(task)
      modifies this
      ensures model == AfterSend(old(model), i)
      ensures outcome.Panic? <==> old(taskQueueClosed)
      ensures !outcome.Panic? ==> Valid()
      ensures outcome.Queued? ==> taskQueue == old(taskQueue) + [task]
      ensures outcome.QueueFull? ==> taskQueue == old(taskQueue) && |taskQueue| == queueSize
    {
      hide Gather, AllExited;
      SendKeepsInv(model, i);
      hide Inv;
      model := AfterSend(model, i);
      if taskQueueClosed {
        return Panic;
      }
      if |taskQueue| < queueSize {
        taskQueue := taskQueue + [task];
        return Queued;
      }
      return QueueFull;
    }

    method ReceiveTask(ghost w: nat) returns (task: Task)
      requires Valid() && Enabled(model, Receive(w))
      modifies this`taskQueue, this`model
      ensures Valid() && model == Apply(old(model), Receive(w))
      ensures task == old(taskQueue)[0] && taskQueue == old(taskQueue)[1..]
    {
      StepKeepsInv(model, Receive(w));
      task := taskQueue[0];
      taskQueue := taskQueue[1..];
      model := Apply(model, Receive(w));
    }

    /** Only the first call goes on; any other returns at once. */
    method StopBegin() returns (first: bool)
      requires Valid()
      modifies this`stopped, this`model
      ensures Valid() && first == !old(stopped) && stopped
      ensures model == Apply(old(model), if first then StopSetFlag else StopAgain)
    {
      if stopped {
        return false;
      }
      StepKeepsInv(model, StopSetFlag);
      stopped := true;
      model := Apply(model, StopSetFlag);
      return true;
    }

    method StopCloseStopChan()
      requires Valid() && model.stopPc.FlagSet?
      modifies this`stopChanClosed, this`model
      ensures Valid() && model == Apply(old(model), StopSignal)
    {
      StepKeepsInv(model, StopSignal);
      stopChanClosed := true;
      model := Apply(model, StopSignal);
    }

    /** After the wait: what is left in the queue will never run. */
    method StopCloseTaskQueue()
      requires Valid() && model.stopPc.WorkersJoined?
      modifies this`taskQueueClosed, this`model
      ensures Valid() && model == Apply(old(model), StopCloseQueue) && taskQueueClosed
      ensures AllExited(model.workers) && model.accepted == model.started + taskQueue
    {
      StepKeepsInv(model, StopCloseQueue);
      taskQueueClosed := true;
      model := Apply(model, StopCloseQueue);
    }
  }
}

/** The condition evaluators and alert builders of the pod, node and metrics collectors. */
module Collectors {
  import opened Models
  import opened Options

  const INT32_MAX: int := 0x7fff_ffff
  const INT32_MIN: int := -0x8000_0000

  type int32 = x: int | INT32_MIN <= x <= INT32_MAX

  /** Addition of 32-bit integers, wrapping around in two's complement. */
  function Add32(x: int32, y: int32): (r: int32)
    ensures (r - (x + y)) % 0x1_0000_0000 == 0
  {
    if x + y > INT32_MAX then x + y - 0x1_0000_0000
    else if x + y < INT32_MIN then x + y + 0x1_0000_0000
    else x + y
  }

  datatype Phase = Pending | Running | Succeeded | Failed | Unknown

  datatype TerminatedReason = OOMKilled | OtherTermination(text: string)

  datatype WaitingReason = CrashLoopBackOff | ImagePullBackOff | ErrImagePull | OtherWaiting(text: string)

  datatype Waiting = Waiting(reason: WaitingReason, message: string)

  datatype Container = Container(name: string, restartCount: int32,
                                 lastTerminated: Option<TerminatedReason>, waiting: Option<Waiting>)

  datatype Pod = Pod(namespace: string, name: string, phase: Phase, containers: seq<Container>)

  // ----- Container searches -----

  predicate IsOOMKilled(c: Container) {
    c.lastTerminated == Some(OOMKilled)
  }

  predicate IsCrashLooping(c: Container) {
    c.waiting.Some? && c.waiting.value.reason == CrashLoopBackOff
  }

  predicate HasImagePullError(c: Container) {
    c.waiting.Some? && c.waiting.value.reason in {ImagePullBackOff, ErrImagePull}
  }

  /** The first container that satisfies the condition, if any. */
  function FirstWith(cs: seq<Container>, condition: Container -> bool): (found: Option<Container>)
    ensures found.None? ==> forall k :: 0 <= k < |cs| ==> !condition(cs[k])
    ensures found.Some? ==>
              exists j :: 0 <= j < |cs| && cs[j] == found.value && condition(cs[j])
                          && forall k :: 0 <= k < j ==> !condition(cs[k])
  {
    if cs == [] then None
    else if condition(cs[0]) then Some(cs[0])
    else
      var rest := FirstWith(cs[1..], condition);
      assert rest.Some? ==>
          exists j :: 0 < j < |cs| && cs[j] == rest.value && condition(cs[j])
                      && forall k :: 0 <= k < j ==> !condition(cs[k]) by {
        if rest.Some? {
          var j :| 0 <= j < |cs[1..]| && cs[1..][j] == rest.value && condition(cs[1..][j])
                   && forall k :: 0 <= k < j ==> !condition(cs[1..][k]);
          assert cs[j + 1] == rest.value;
          assert forall k :: 0 < k < j + 1 ==> cs[k] == cs[1..][k - 1];
        }
      }
      rest
  }

  function OOMKilledContainer(pod: Pod): string {
    match FirstWith(pod.containers, IsOOMKilled)
    case Some(c) => c.name
    case None => "unknown"
  }

  function CrashLoopContainer(pod: Pod): (string, string) {
    match FirstWith(pod.containers, IsCrashLooping)
    case Some(c) => (c.name, if c.waiting.Some? then c.waiting.value.message else "")
    case None => ("unknown", "unknown")
  }

  function ImagePullErrorContainer(pod: Pod): string {
    match FirstWith(pod.containers, HasImagePullError)
    case Some(c) => c.name
    case None => "unknown"
  }

  /** The running maximum of restart counts and the name that goes with it. */
  function HighestRestart(cs: seq<Container>): (int32, string) {
    if cs == [] then (0, "unknown")
    else
      var best := HighestRestart(cs[..|cs| - 1]);
      var c := cs[|cs| - 1];
      if c.restartCount > best.0 then (c.restartCount, c.name) else best
  }

  method GetHighestRestartContainer(pod: Pod) returns (containerName: string)
    ensures containerName == HighestRestart(pod.containers).1
  {
    var maxRestarts: int32 := 0;
    containerName := "unknown";
    for i := 0 to |pod.containers|
      invariant (maxRestarts, containerName) == HighestRestart(pod.containers[..i])
    {
      var c := pod.containers[i];
      assert pod.containers[..i + 1][..i] == pod.containers[..i];
      if c.restartCount > maxRestarts {
        maxRestarts := c.restartCount;
        containerName := c.name;
      }
    }
    assert pod.containers[..|pod.containers|] == pod.containers;
  }

  /** The label names the first container whose restart count is the maximum, once any count is positive. */
  lemma {:induction false} HighestRestartIsFirstMaximum(cs: seq<Container>)
    ensures forall k :: 0 <= k < |cs| ==> cs[k].restartCount <= HighestRestart(cs).0
    ensures HighestRestart(cs).0 >= 0
    ensures HighestRestart(cs).0 == 0 ==> HighestRestart(cs).1 == "unknown"
    ensures HighestRestart(cs).0 > 0 ==>
              exists j :: 0 <= j < |cs| && (cs[j].restartCount, cs[j].name) == HighestRestart(cs)
                          && forall k :: 0 <= k < j ==> cs[k].restartCount < cs[j].restartCount
  {
    if cs != [] {
      var init := cs[..|cs| - 1];
      HighestRestartIsFirstMaximum(init);
      assert forall k :: 0 <= k < |init| ==> init[k] == cs[k];
      var last := cs[|cs| - 1];
      if last.restartCount > HighestRestart(init).0 {
        assert forall k :: 0 <= k < |cs| - 1 ==> cs[k].restartCount < last.restartCount;
      } else if HighestRestart(init).0 > 0 {
        var j :| 0 <= j < |init| && (init[j].restartCount, init[j].name) == HighestRestart(init)
                 && forall k :: 0 <= k < j ==> init[k].restartCount < init[j].restartCount;
        assert (cs[j].restartCount, cs[j].name) == HighestRestart(cs);
      }
    }
  }

  // ----- Pod alerts -----

  /** What `BuildPodAlert` fills in for each alert type. */
  function PodDraft(pod: Pod, alertType: AlertType, value: real): Draft {
    var labels := map[NamespaceLabel := pod.namespace, PodLabel := pod.name];
    match alertType
    case PodFailed => Draft(alertType, Critical, K8sPod, value, labels)
    case PodOOMKilled =>
      Draft(alertType, Critical, K8sPod, value, labels[ContainerLabel := OOMKilledContainer(pod)])
    case PodCrashLoop =>
      var (name, reason) := CrashLoopContainer(pod);
      Draft(alertType, High, K8sPod, value, labels[ContainerLabel := name][ReasonLabel := reason])
    case PodRestartThreshold =>
      Draft(alertType, High, K8sPod, value, labels[ContainerLabel := HighestRestart(pod.containers).1])
    case PodImagePullError =>
      Draft(alertType, High, K8sPod, value, labels[ContainerLabel := ImagePullErrorContainer(pod)])
    case PodPending => Draft(alertType, Medium, K8sPod, value, labels)
    case PodUnknown => Draft(alertType, Critical, K8sPod, value, labels)
    case _ => Draft(alertType, Medium, K8sPod, value, labels)
  }

  method BuildPodAlert(pod: Pod, alertType: AlertType, value: real) returns (draft: Draft)
    ensures draft == PodDraft(pod, alertType, value)
  {
    var severity := Medium;
    var labels := map[NamespaceLabel := pod.namespace, PodLabel := pod.name];
    match alertType {
      case PodFailed =>
        severity := Critical;
      case PodOOMKilled =>
        severity := Critical;
        labels := labels[ContainerLabel := OOMKilledContainer(pod)];
      case PodCrashLoop =>
        severity := High;
        var (name, reason) := CrashLoopContainer(pod);
        labels := labels[ContainerLabel := name];
        labels := labels[ReasonLabel := reason];
      case PodRestartThreshold =>
        severity := High;
        var name := GetHighestRestartContainer(pod);
        labels := labels[ContainerLabel := name];
      case PodImagePullError =>
        severity := High;
        labels := labels[ContainerLabel := ImagePullErrorContainer(pod)];
      case PodPending =>
        severity := Medium;
      case PodUnknown =>
        severity := Critical;
      case _ =>
        severity := Medium;
    }
    draft := Draft(alertType, severity, K8sPod, value, labels);
  }

  function When(condition: bool, draft: Draft): (drafts: seq<Draft>) {
    if condition then [draft] else []
  }

  function ContainerDrafts(pod: Pod, c: Container): seq<Draft> {
    When(IsOOMKilled(c), PodDraft(pod, PodOOMKilled, c.restartCount as real)) +
    When(IsCrashLooping(c), PodDraft(pod, PodCrashLoop, c.restartCount as real)) +
    When(HasImagePullError(c), PodDraft(pod, PodImagePullError, 1.0))
  }

  /** The alerts raised by the given containers of the pod, in order. */
  function ScanDrafts(pod: Pod, cs: seq<Container>): seq<Draft> {
    if cs == [] then []
    else ScanDrafts(pod, cs[..|cs| - 1]) + ContainerDrafts(pod, cs[|cs| - 1])
  }

  /** The restart total as 32-bit addition computes it. */
  function TotalRestarts32(cs: seq<Container>): int32 {
    if cs == [] then 0 else Add32(TotalRestarts32(cs[..|cs| - 1]), cs[|cs| - 1].restartCount)
  }

  /** The restart total in unbounded arithmetic. */
  function TotalRestarts(cs: seq<Container>): int {
    if cs == [] then 0 else TotalRestarts(cs[..|cs| - 1]) + cs[|cs| - 1].restartCount
  }

  function PhaseDrafts(pod: Pod): seq<Draft> {
    When(pod.phase == Failed, PodDraft(pod, PodFailed, 1.0)) +
    When(pod.phase == Unknown, PodDraft(pod, PodUnknown, 1.0))
  }

  /** `overdue` says that the pod is older than the pending timeout at the moment of evaluation. */
  function ClosingDrafts(pod: Pod, total: int32, threshold: int32, overdue: bool): seq<Draft> {
    When(total > threshold, PodDraft(pod, PodRestartThreshold, total as real)) +
    When(pod.phase == Pending && overdue, PodDraft(pod, PodPending, 1.0))
  }

  function PodDrafts(pod: Pod, threshold: int32, overdue: bool): seq<Draft> {
    PhaseDrafts(pod) + ScanDrafts(pod, pod.containers) +
    ClosingDrafts(pod, TotalRestarts32(pod.containers), threshold, overdue)
  }

  lemma {:induction false} ConcatAssociates(a: seq<Draft>, b: seq<Draft>, c: seq<Draft>)
    ensures a + b + c == a + (b + c)
  {
  }

  /** The loop over the container statuses. */
  method EvaluateContainers(pod: Pod) returns (alerts: seq<Draft>, totalRestarts: int32)
    ensures totalRestarts == TotalRestarts32(pod.containers)
    ensures alerts == ScanDrafts(pod, pod.containers)
  {
    hide PodDraft, Add32;
    alerts, totalRestarts := [], 0;
    var cs := pod.containers;
    for i := 0 to |cs|
      invariant totalRestarts == TotalRestarts32(cs[..i])
      invariant alerts == ScanDrafts(pod, cs[..i])
    {
      var c := cs[i];
      assert cs[..i + 1][..i] == cs[..i];
      ghost var scanned := alerts;
      ghost var oom := When(IsOOMKilled(c), PodDraft(pod, PodOOMKilled, c.restartCount as real));
      ghost var crash := When(IsCrashLooping(c), PodDraft(pod, PodCrashLoop, c.restartCount as real));
      totalRestarts := Add32(totalRestarts, c.restartCount);
      if IsOOMKilled(c) {
        var alert := BuildPodAlert(pod, PodOOMKilled, c.restartCount as real);
        alerts := alerts + [alert];
      }
      assert alerts == scanned + oom;
      if IsCrashLooping(c) {
        var alert := BuildPodAlert(pod, PodCrashLoop, c.restartCount as real);
        alerts := alerts + [alert];
      }
      ConcatAssociates(scanned, oom, crash);
      assert alerts == scanned + (oom + crash);
      if HasImagePullError(c) {
        var alert := BuildPodAlert(pod, PodImagePullError, 1.0);
        alerts := alerts + [alert];
      }
      ConcatAssociates(scanned, oom + crash, When(HasImagePullError(c), PodDraft(pod, PodImagePullError, 1.0)));
    }
    assert cs[..|cs|] == cs;
  }

  method EvaluatePodConditions(pod: Pod, threshold: int32, overdue: bool) returns (alerts: seq<Draft>)
    ensures alerts == PodDrafts(pod, threshold, overdue)
  {
    hide PodDraft, ScanDrafts, TotalRestarts32;
    alerts := [];
    if pod.phase == Failed {
      var alert := BuildPodAlert(pod, PodFailed, 1.0);
      alerts := alerts + [alert];
    }
    if pod.phase == Unknown {
      var alert := BuildPodAlert(pod, PodUnknown, 1.0);
      alerts := alerts + [alert];
    }
    var containerAlerts, totalRestarts := EvaluateContainers(pod);
    alerts := alerts + containerAlerts;
    ghost var scanned := alerts;
    if totalRestarts > threshold {
      var alert := BuildPodAlert(pod, PodRestartThreshold, totalRestarts as real);
      alerts := alerts + [alert];
    }
    if pod.phase == Pending && overdue {
      var alert := BuildPodAlert(pod, PodPending, 1.0);
      alerts := alerts + [alert];
    }
    assert alerts == scanned + ClosingDrafts(pod, totalRestarts, threshold, overdue);
  }

  // ----- What the pod evaluation promises -----

  ghost function CountOf(drafts: seq<Draft>, alertType: AlertType): nat {
    if drafts == [] then 0
    else CountOf(drafts[..|drafts| - 1], alertType) + (if drafts[|drafts| - 1].alertType == alertType then 1 else 0)
  }

  ghost function CountIf<T>(xs: seq<T>, condition: T -> bool): nat {
    if xs == [] then 0
    else CountIf(xs[..|xs| - 1], condition) + (if condition(xs[|xs| - 1]) then 1 else 0)
  }

  lemma {:induction false} CountOfConcat(a: seq<Draft>, b: seq<Draft>, alertType: AlertType)
    ensures CountOf(a + b, alertType) == CountOf(a, alertType) + CountOf(b, alertType)
  {
    if b == [] {
      assert a + b == a;
    } else {
      assert (a + b)[..|a + b| - 1] == a + b[..|b| - 1];
      CountOfConcat(a, b[..|b| - 1], alertType);
    }
  }

  lemma {:induction false} CountOfWhen(condition: bool, draft: Draft, alertType: AlertType)
    ensures CountOf(When(condition, draft), alertType) == (if condition && draft.alertType == alertType then 1 else 0)
  {
    if condition {
      assert [draft][..0] == [];
    }
  }

  lemma {:induction false} CountOfThree(a: seq<Draft>, b: seq<Draft>, c: seq<Draft>, alertType: AlertType)
    ensures CountOf(a + b + c, alertType) == CountOf(a, alertType) + CountOf(b, alertType) + CountOf(c, alertType)
  {
    CountOfConcat(a + b, c, alertType);
    CountOfConcat(a, b, alertType);
  }

  lemma {:induction false} CountOfWhens(p: bool, a: Draft, q: bool, b: Draft, r: bool, c: Draft, alertType: AlertType)
    ensures CountOf(When(p, a) + When(q, b) + When(r, c), alertType) ==
            (if p && a.alertType == alertType then 1 else 0)
            + (if q && b.alertType == alertType then 1 else 0)
            + (if r && c.alertType == alertType then 1 else 0)
  {
    CountOfThree(When(p, a), When(q, b), When(r, c), alertType);
    CountOfWhen(p, a, alertType);
    CountOfWhen(q, b, alertType);
    CountOfWhen(r, c, alertType);
  }

  lemma {:induction false} CountInContainer(pod: Pod, c: Container, alertType: AlertType)
    ensures CountOf(ContainerDrafts(pod, c), alertType) ==
            (if alertType == PodOOMKilled && IsOOMKilled(c) then 1
             else if alertType == PodCrashLoop && IsCrashLooping(c) then 1
             else if alertType == PodImagePullError && HasImagePullError(c) then 1 else 0)
    ensures |ContainerDrafts(pod, c)| <= 2
  {
    CountOfWhens(IsOOMKilled(c), PodDraft(pod, PodOOMKilled, c.restartCount as real),
                 IsCrashLooping(c), PodDraft(pod, PodCrashLoop, c.restartCount as real),
                 HasImagePullError(c), PodDraft(pod, PodImagePullError, 1.0), alertType);
  }

  lemma {:induction false} CountInScan(pod: Pod, cs: seq<Container>, alertType: AlertType)
    ensures CountOf(ScanDrafts(pod, cs), alertType) ==
            (if alertType == PodOOMKilled then CountIf(cs, IsOOMKilled)
             else if alertType == PodCrashLoop then CountIf(cs, IsCrashLooping)
             else if alertType == PodImagePullError then CountIf(cs, HasImagePullError) else 0)
    ensures |ScanDrafts(pod, cs)| <= 2 * |cs|
  {
    hide PodDraft, ContainerDrafts;
    if cs != [] {
      var init, last := cs[..|cs| - 1], cs[|cs| - 1];
      CountInScan(pod, init, alertType);
      CountInContainer(pod, last, alertType);
      CountOfConcat(ScanDrafts(pod, init), ContainerDrafts(pod, last), alertType);
    }
  }

  lemma {:induction false} CountInPhase(pod: Pod, alertType: AlertType)
    ensures CountOf(PhaseDrafts(pod), alertType) ==
            (if alertType == PodFailed && pod.phase == Failed then 1
             else if alertType == PodUnknown && pod.phase == Unknown then 1 else 0)
  {
    var failed, unknown := PodDraft(pod, PodFailed, 1.0), PodDraft(pod, PodUnknown, 1.0);
    CountOfConcat(When(pod.phase == Failed, failed), When(pod.phase == Unknown, unknown), alertType);
    CountOfWhen(pod.phase == Failed, failed, alertType);
    CountOfWhen(pod.phase == Unknown, unknown, alertType);
  }

  lemma {:induction false} CountInClosing(pod: Pod, total: int32, threshold: int32, overdue: bool, alertType: AlertType)
    ensures CountOf(ClosingDrafts(pod, total, threshold, overdue), alertType) ==
            (if alertType == PodRestartThreshold && total > threshold then 1
             else if alertType == PodPending && pod.phase == Pending && overdue then 1 else 0)
  {
    var restarts, pending := PodDraft(pod, PodRestartThreshold, total as real), PodDraft(pod, PodPending, 1.0);
    CountOfConcat(When(total > threshold, restarts), When(pod.phase == Pending && overdue, pending), alertType);
    CountOfWhen(total > threshold, restarts, alertType);
    CountOfWhen(pod.phase == Pending && overdue, pending, alertType);
  }

  /** How often each type of alert is raised: once per afflicted container, once per pod-level condition. */
  ghost function ExpectedCount(pod: Pod, threshold: int32, overdue: bool, alertType: AlertType): nat {
    match alertType
    case PodOOMKilled => CountIf(pod.containers, IsOOMKilled)
    case PodCrashLoop => CountIf(pod.containers, IsCrashLooping)
    case PodImagePullError => CountIf(pod.containers, HasImagePullError)
    case PodFailed => if pod.phase == Failed then 1 else 0
    case PodUnknown => if pod.phase == Unknown then 1 else 0
    case PodPending => if pod.phase == Pending && overdue then 1 else 0
    case PodRestartThreshold => if TotalRestarts32(pod.containers) > threshold then 1 else 0
    case _ => 0
  }

  lemma {:induction false} PodDraftCounts(pod: Pod, threshold: int32, overdue: bool, alertType: AlertType)
    ensures CountOf(PodDrafts(pod, threshold, overdue), alertType) == ExpectedCount(pod, threshold, overdue, alertType)
  {
    hide PodDraft, ScanDrafts, PhaseDrafts, ClosingDrafts;
    var total := TotalRestarts32(pod.containers);
    CountOfThree(PhaseDrafts(pod), ScanDrafts(pod, pod.containers),
                 ClosingDrafts(pod, total, threshold, overdue), alertType);
    CountInPhase(pod, alertType);
    CountInClosing(pod, total, threshold, overdue, alertType);
    CountInScan(pod, pod.containers, alertType);
  }

  lemma {:induction false} PodDraftBound(pod: Pod, threshold: int32, overdue: bool)
    ensures |PodDrafts(pod, threshold, overdue)| <= 2 * |pod.containers| + 2
  {
    hide PodDraft, CountOf;
    CountInScan(pod, pod.containers, PodFailed);
  }

  /** Without overflow, the 32-bit total is the real one. */
  lemma {:induction false} TotalRestartsWithoutOverflow(cs: seq<Container>)
    requires forall k :: 0 <= k < |cs| ==> cs[k].restartCount >= 0
    requires TotalRestarts(cs) <= INT32_MAX
    ensures TotalRestarts32(cs) == TotalRestarts(cs)
    ensures forall k :: 0 <= k < |cs| ==> cs[k].restartCount <= TotalRestarts(cs)
    ensures 0 <= TotalRestarts(cs) <= INT32_MAX
  {
    if cs != [] {
      var init := cs[..|cs| - 1];
      assert forall k :: 0 <= k < |init| ==> init[k] == cs[k];
      NonNegativeTotal(init);
      TotalRestartsWithoutOverflow(init);
    }
  }

  lemma {:induction false} NonNegativeTotal(cs: seq<Container>)
    requires forall k :: 0 <= k < |cs| ==> cs[k].restartCount >= 0
    ensures TotalRestarts(cs) >= 0
    ensures TotalRestarts(cs) > 0 ==> exists k :: 0 <= k < |cs| && cs[k].restartCount > 0
  {
    if cs != [] {
      var init := cs[..|cs| - 1];
      assert forall k :: 0 <= k < |init| ==> init[k] == cs[k];
      NonNegativeTotal(init);
      if TotalRestarts(init) > 0 {
        var k :| 0 <= k < |init| && init[k].restartCount > 0;
        assert cs[k].restartCount > 0;
      } else if TotalRestarts(cs) > 0 {
        assert cs[|cs| - 1].restartCount > 0;
      }
    }
  }

  /** The container a label of this draft has to name. */
  ghost predicate NamesFirst(draft: Draft, cs: seq<Container>, condition: Container -> bool) {
    && ContainerLabel in draft.labels
    && exists j :: 0 <= j < |cs| && condition(cs[j]) && cs[j].name == draft.labels[ContainerLabel]
                   && forall k :: 0 <= k < j ==> !condition(cs[k])
  }

  lemma {:induction false} PodDraftNames(pod: Pod, j: nat, value: real)
    requires j < |pod.containers|
    ensures IsOOMKilled(pod.containers[j]) ==>
              NamesFirst(PodDraft(pod, PodOOMKilled, value), pod.containers, IsOOMKilled)
    ensures IsCrashLooping(pod.containers[j]) ==>
              NamesFirst(PodDraft(pod, PodCrashLoop, value), pod.containers, IsCrashLooping)
    ensures HasImagePullError(pod.containers[j]) ==>
              NamesFirst(PodDraft(pod, PodImagePullError, value), pod.containers, HasImagePullError)
  {
    var cs := pod.containers;
    var oom, crash, pull :=
      FirstWith(cs, IsOOMKilled), FirstWith(cs, IsCrashLooping), FirstWith(cs, HasImagePullError);
  }

  ghost predicate ContainerAlertNamed(pod: Pod, draft: Draft) {
    && (draft.alertType == PodOOMKilled ==> NamesFirst(draft, pod.containers, IsOOMKilled))
    && (draft.alertType == PodCrashLoop ==> NamesFirst(draft, pod.containers, IsCrashLooping))
    && (draft.alertType == PodImagePullError ==> NamesFirst(draft, pod.containers, HasImagePullError))
  }

  lemma {:induction false} ContainerDraftsNamed(pod: Pod, j: nat)
    requires j < |pod.containers|
    ensures forall d :: d in ContainerDrafts(pod, pod.containers[j]) ==> ContainerAlertNamed(pod, d)
  {
    var c := pod.containers[j];
    PodDraftNames(pod, j, c.restartCount as real);
    PodDraftNames(pod, j, 1.0);
    assert PodDraft(pod, PodOOMKilled, c.restartCount as real).alertType == PodOOMKilled;
    assert PodDraft(pod, PodCrashLoop, c.restartCount as real).alertType == PodCrashLoop;
    assert PodDraft(pod, PodImagePullError, 1.0).alertType == PodImagePullError;
    hide PodDraft, NamesFirst;
  }

  lemma {:induction false} ScanDraftsNamed(pod: Pod, n: nat)
    requires n <= |pod.containers|
    ensures forall d :: d in ScanDrafts(pod, pod.containers[..n]) ==> ContainerAlertNamed(pod, d)
  {
    if n > 0 {
      var cs := pod.containers[..n];
      assert cs[..n - 1] == pod.containers[..n - 1];
      ScanDraftsNamed(pod, n - 1);
      ContainerDraftsNamed(pod, n - 1);
      hide ContainerDrafts, ContainerAlertNamed;
    }
  }

  lemma {:induction false} PodLevelAlertsAreNotContainerAlerts(pod: Pod, total: int32, threshold: int32, overdue: bool)
    ensures forall d :: d in PhaseDrafts(pod) ==> ContainerAlertNamed(pod, d)
    ensures forall d :: d in ClosingDrafts(pod, total, threshold, overdue) ==> ContainerAlertNamed(pod, d)
  {
    hide NamesFirst;
    assert PodDraft(pod, PodFailed, 1.0).alertType == PodFailed;
    assert PodDraft(pod, PodUnknown, 1.0).alertType == PodUnknown;
    assert PodDraft(pod, PodRestartThreshold, total as real).alertType == PodRestartThreshold;
    assert PodDraft(pod, PodPending, 1.0).alertType == PodPending;
    hide PodDraft;
  }

  /** Every per-container alert carries the name of a container that has the condition: the first one. */
  lemma {:induction false} ContainerLabelsNameAfflictedContainers(pod: Pod, threshold: int32, overdue: bool)
    ensures forall d :: d in PodDrafts(pod, threshold, overdue) ==> ContainerAlertNamed(pod, d)
  {
    ScanDraftsNamed(pod, |pod.containers|);
    assert pod.containers[..|pod.containers|] == pod.containers;
    PodLevelAlertsAreNotContainerAlerts(pod, TotalRestarts32(pod.containers), threshold, overdue);
    hide ContainerAlertNamed, ScanDrafts, PhaseDrafts, ClosingDrafts;
  }

  predicate RaisedPerContainer(alertType: AlertType) {
    alertType.PodOOMKilled? || alertType.PodCrashLoop? || alertType.PodImagePullError?
  }

  /** The condition behind each of the three alerts that are raised per container. */
  predicate Afflicted(alertType: AlertType, c: Container) {
    match alertType
    case PodOOMKilled => IsOOMKilled(c)
    case PodCrashLoop => IsCrashLooping(c)
    case PodImagePullError => HasImagePullError(c)
    case _ => false
  }

  /** No container before position i has the condition, and the one at i does. */
  ghost predicate FirstAfflicted(alertType: AlertType, cs: seq<Container>, i: nat) {
    i < |cs| && Afflicted(alertType, cs[i]) && forall k :: 0 <= k < i ==> !Afflicted(alertType, cs[k])
  }

  ghost predicate DistinctNames(cs: seq<Container>) {
    forall i, j :: 0 <= i < j < |cs| ==> cs[i].name != cs[j].name
  }

  lemma {:induction false} ScanPrefix(pod: Pod, cs: seq<Container>, n: nat)
    requires n <= |cs|
    ensures ScanDrafts(pod, cs[..n]) <= ScanDrafts(pod, cs)
    decreases |cs|
  {
    if n == |cs| {
      assert cs[..n] == cs;
    } else {
      var init := cs[..|cs| - 1];
      assert init[..n] == cs[..n];
      ScanPrefix(pod, init, n);
      hide ContainerDrafts;
    }
  }

  lemma {:induction false} ScanInPlace(pod: Pod, j: nat)
    requires j < |pod.containers|
    ensures ScanDrafts(pod, pod.containers[..j]) + ContainerDrafts(pod, pod.containers[j])
            <= ScanDrafts(pod, pod.containers)
  {
    var cs := pod.containers;
    assert cs[..j + 1][..j] == cs[..j];
    hide ContainerDrafts;
    assert ScanDrafts(pod, cs[..j + 1]) == ScanDrafts(pod, cs[..j]) + ContainerDrafts(pod, cs[j]);
    hide ScanDrafts;
    ScanPrefix(pod, cs, j + 1);
  }

  /** Where the alerts of container j stand among the alerts of its pod. */
  lemma {:induction false} ContainerAlertsAreInPlace(pod: Pod, threshold: int32, overdue: bool, j: nat)
    requires j < |pod.containers|
    ensures var alerts := PodDrafts(pod, threshold, overdue);
            var from := |PhaseDrafts(pod)| + |ScanDrafts(pod, pod.containers[..j])|;
            var size := |ContainerDrafts(pod, pod.containers[j])|;
            from + size <= |alerts| && alerts[from..from + size] == ContainerDrafts(pod, pod.containers[j])
  {
    hide ScanDrafts, ContainerDrafts, PhaseDrafts, ClosingDrafts, TotalRestarts32;
    var cs := pod.containers;
    ScanInPlace(pod, j);
    SliceInside(PhaseDrafts(pod), ScanDrafts(pod, cs[..j]), ContainerDrafts(pod, cs[j]), ScanDrafts(pod, cs),
                ClosingDrafts(pod, TotalRestarts32(cs), threshold, overdue));
  }

  lemma {:induction false} SliceInside(first: seq<Draft>, before: seq<Draft>, own: seq<Draft>, scanned: seq<Draft>,
                                       last: seq<Draft>)
    requires before + own <= scanned
    ensures var from := |first| + |before|;
            from + |own| <= |first + scanned + last|
            && (first + scanned + last)[from..from + |own|] == own
  {
    assert forall i :: 0 <= i < |own| ==> scanned[|before| + i] == (before + own)[|before| + i] == own[i];
  }

  lemma {:induction false} ContainerAlertType(pod: Pod, c: Container, alert: Draft)
    requires alert in ContainerDrafts(pod, c)
    ensures RaisedPerContainer(alert.alertType) && Afflicted(alert.alertType, c)
  {
    assert PodDraft(pod, PodOOMKilled, c.restartCount as real).alertType == PodOOMKilled;
    assert PodDraft(pod, PodCrashLoop, c.restartCount as real).alertType == PodCrashLoop;
    assert PodDraft(pod, PodImagePullError, 1.0).alertType == PodImagePullError;
    hide PodDraft;
  }

  lemma {:induction false} NamesTheFirstAfflicted(pod: Pod, alert: Draft) returns (i: nat)
    requires ContainerAlertNamed(pod, alert) && RaisedPerContainer(alert.alertType)
    ensures FirstAfflicted(alert.alertType, pod.containers, i)
    ensures ContainerLabel in alert.labels && pod.containers[i].name == alert.labels[ContainerLabel]
  {
    var cs := pod.containers;
    var condition := if alert.alertType.PodOOMKilled? then IsOOMKilled
                     else if alert.alertType.PodCrashLoop? then IsCrashLooping else HasImagePullError;
    i :| 0 <= i < |cs| && condition(cs[i]) && cs[i].name == alert.labels[ContainerLabel]
         && forall k :: 0 <= k < i ==> !condition(cs[k]);
  }

  /** An alert emitted for container j carries its name if and only if the first container of the pod that has
      the condition goes by that name. */
  lemma {:induction false} ContainerAlertNamesItsOwnIff(pod: Pod, j: nat, alert: Draft)
    requires j < |pod.containers| && alert in ContainerDrafts(pod, pod.containers[j])
    ensures ContainerLabel in alert.labels
    ensures alert.labels[ContainerLabel] == pod.containers[j].name <==>
            forall i :: 0 <= i < j && FirstAfflicted(alert.alertType, pod.containers, i) ==>
              pod.containers[i].name == pod.containers[j].name
  {
    hide ContainerDrafts, ContainerAlertNamed;
    ContainerDraftsNamed(pod, j);
    ContainerAlertType(pod, pod.containers[j], alert);
    var i := NamesTheFirstAfflicted(pod, alert);
    assert i <= j;
  }

  /** In a pod whose containers have different names, an alert emitted for container j names container j if and
      only if no container before it has the condition. */
  lemma {:induction false} AlertNamesItsContainerIffFirst(pod: Pod, j: nat, alert: Draft)
    requires DistinctNames(pod.containers)
    requires j < |pod.containers| && alert in ContainerDrafts(pod, pod.containers[j])
    ensures ContainerLabel in alert.labels
    ensures alert.labels[ContainerLabel] == pod.containers[j].name <==>
            forall k :: 0 <= k < j ==> !Afflicted(alert.alertType, pod.containers[k])
  {
    var cs := pod.containers;
    ContainerAlertNamesItsOwnIff(pod, j, alert);
    hide ContainerDrafts;
    if k :| 0 <= k < j && Afflicted(alert.alertType, cs[k]) {
      var first := FirstAfflictedUpTo(alert.alertType, cs, k);
      assert FirstAfflicted(alert.alertType, cs, first) && cs[first].name != cs[j].name;
    }
  }

  lemma {:induction false} FirstAfflictedUpTo(alertType: AlertType, cs: seq<Container>, k: nat) returns (first: nat)
    requires k < |cs| && Afflicted(alertType, cs[k])
    ensures first <= k && FirstAfflicted(alertType, cs, first)
  {
    if m :| 0 <= m < k && Afflicted(alertType, cs[m]) {
      first := FirstAfflictedUpTo(alertType, cs, m);
    } else {
      first := k;
    }
  }

  /** A container that has exactly the condition behind the alert. */
  function Sick(name: string, alertType: AlertType): Container
  {
    if alertType.PodOOMKilled? then Container(name, 1, Some(OOMKilled), None)
    else if alertType.PodCrashLoop? then Container(name, 1, None, Some(Waiting(CrashLoopBackOff, "")))
    else Container(name, 1, None, Some(Waiting(ImagePullBackOff, "")))
  }

  lemma {:induction false} SickContainerRaisesOne(pod: Pod, name: string, alertType: AlertType)
    requires RaisedPerContainer(alertType)
    ensures ContainerDrafts(pod, Sick(name, alertType)) ==
            [PodDraft(pod, alertType, if alertType.PodImagePullError? then 1.0 else 1 as real)]
  {
    hide PodDraft;
  }

  /** It happens for each of the three: of two containers with the condition, both alerts name the first. */
  lemma {:induction false} SecondContainerGoesUnnamed(namespace: string, name: string, alertType: AlertType)
    requires RaisedPerContainer(alertType)
    ensures var pod := Pod(namespace, name, Running, [Sick("a", alertType), Sick("b", alertType)]);
            var alerts := PodDrafts(pod, 5, false);
            && |alerts| == 2
            && forall i :: 0 <= i < 2 ==>
                 && alerts[i] in ContainerDrafts(pod, pod.containers[i]) && alerts[i].alertType == alertType
                 && ContainerLabel in alerts[i].labels && alerts[i].labels[ContainerLabel] == "a"
  {
    var a, b := Sick("a", alertType), Sick("b", alertType);
    var pod := Pod(namespace, name, Running, [a, b]);
    var cs := pod.containers;
    assert cs[..1] == [a] && cs[..0] == [];
    assert TotalRestarts32([a]) == 1 && TotalRestarts32(cs) == 2;
    var value := if alertType.PodImagePullError? then 1.0 else 1 as real;
    var alert := PodDraft(pod, alertType, value);
    assert alert.alertType == alertType && alert.labels[ContainerLabel] == "a";
    hide PodDraft;
    SickContainerRaisesOne(pod, "a", alertType);
    SickContainerRaisesOne(pod, "b", alertType);
    assert ScanDrafts(pod, []) == [];
    hide ContainerDrafts;
    assert ScanDrafts(pod, [a]) == ScanDrafts(pod, []) + [alert];
    assert ScanDrafts(pod, cs) == ScanDrafts(pod, [a]) + [alert];
    assert PhaseDrafts(pod) == [] && ClosingDrafts(pod, 2, 5, false) == [];
    hide ScanDrafts, PhaseDrafts, ClosingDrafts;
    assert PodDrafts(pod, 5, false) == [alert, alert];
  }

  lemma {:induction false} RestartAlertRaised(pod: Pod, threshold: int32, overdue: bool)
    requires TotalRestarts32(pod.containers) > threshold
    ensures PodDraft(pod, PodRestartThreshold, TotalRestarts32(pod.containers) as real)
            in PodDrafts(pod, threshold, overdue)
  {
    hide PodDraft;
    var total := TotalRestarts32(pod.containers);
    assert ClosingDrafts(pod, total, threshold, overdue)[0] == PodDraft(pod, PodRestartThreshold, total as real);
  }

  /** The container the restart alert has to name: the first of maximal restart count. */
  ghost predicate IsFirstMaximum(cs: seq<Container>, j: int) {
    && 0 <= j < |cs|
    && (forall k :: 0 <= k < |cs| ==> cs[k].restartCount <= cs[j].restartCount)
    && (forall k :: 0 <= k < j ==> cs[k].restartCount < cs[j].restartCount)
  }

  lemma {:induction false} RestartLabelNamesFirstMaximum(pod: Pod, value: real)
    requires exists k :: 0 <= k < |pod.containers| && pod.containers[k].restartCount > 0
    ensures exists j :: IsFirstMaximum(pod.containers, j)
                        && PodDraft(pod, PodRestartThreshold, value).labels[ContainerLabel] == pod.containers[j].name
  {
    var cs := pod.containers;
    HighestRestartIsFirstMaximum(cs);
    var j :| 0 <= j < |cs| && (cs[j].restartCount, cs[j].name) == HighestRestart(cs)
             && forall k :: 0 <= k < j ==> cs[k].restartCount < cs[j].restartCount;
    assert IsFirstMaximum(cs, j);
    assert PodDraft(pod, PodRestartThreshold, value).labels[ContainerLabel] == cs[j].name;
  }

  /** In range, the restart alert appears exactly when the true total is over the threshold, it carries
      that total, and it names the first container of maximal restart count. */
  lemma {:induction false} RestartAlertIsExact(pod: Pod, threshold: int32, overdue: bool)
    requires threshold >= 0
    requires forall k :: 0 <= k < |pod.containers| ==> pod.containers[k].restartCount >= 0
    requires TotalRestarts(pod.containers) <= INT32_MAX
    ensures CountOf(PodDrafts(pod, threshold, overdue), PodRestartThreshold) ==
            (if TotalRestarts(pod.containers) > threshold then 1 else 0)
    ensures TotalRestarts(pod.containers) > threshold ==>
              var alert := PodDraft(pod, PodRestartThreshold, TotalRestarts(pod.containers) as real);
              && alert in PodDrafts(pod, threshold, overdue)
              && exists j :: IsFirstMaximum(pod.containers, j)
                             && alert.labels[ContainerLabel] == pod.containers[j].name
  {
    PodDraftCounts(pod, threshold, overdue, PodRestartThreshold);
    TotalRestartsWithoutOverflow(pod.containers);
    if TotalRestarts(pod.containers) > threshold {
      NonNegativeTotal(pod.containers);
      RestartAlertRaised(pod, threshold, overdue);
      RestartLabelNamesFirstMaximum(pod, TotalRestarts(pod.containers) as real);
    }
    hide CountOf, PodDrafts, IsFirstMaximum;
  }

  /** Past the 32-bit range the alert can be lost: two containers suffice. */
  lemma {:induction false} RestartAlertLostToOverflow(namespace: string, name: string)
    ensures var c := Container("a", INT32_MAX, None, None);
            var pod := Pod(namespace, name, Running, [c, c]);
            TotalRestarts(pod.containers) > 5
            && CountOf(PodDrafts(pod, 5, false), PodRestartThreshold) == 0
  {
    var c := Container("a", INT32_MAX, None, None);
    var pod := Pod(namespace, name, Running, [c, c]);
    assert [c][..0] == [];
    assert TotalRestarts([c]) == INT32_MAX;
    assert TotalRestarts32([c]) == INT32_MAX;
    assert [c, c][..1] == [c];
    assert TotalRestarts32([c, c]) == -2;
    assert TotalRestarts([c, c]) == 2 * INT32_MAX;
    PodDraftCounts(pod, 5, false, PodRestartThreshold);
  }

  lemma {:induction false} TotalsAppend(cs: seq<Container>, c: Container)
    ensures TotalRestarts(cs + [c]) == TotalRestarts(cs) + c.restartCount
    ensures TotalRestarts32(cs + [c]) == Add32(TotalRestarts32(cs), c.restartCount)
  {
    assert (cs + [c])[..|cs|] == cs;
  }

  /** Past the range the alert can also be raised with a wrong total: three containers suffice. */
  lemma {:induction false} RestartAlertCarriesWrappedTotal(namespace: string, name: string)
    ensures var c := Container("a", INT32_MAX, None, None);
            var pod := Pod(namespace, name, Running, [c, c, Container("b", 9, None, None)]);
            && TotalRestarts(pod.containers) == 0x1_0000_0007
            && PodDraft(pod, PodRestartThreshold, 7.0) in PodDrafts(pod, 5, false)
  {
    var c, d := Container("a", INT32_MAX, None, None), Container("b", 9, None, None);
    var pod := Pod(namespace, name, Running, [c, c, d]);
    assert [c] == [] + [c] && [c, c] == [c] + [c] && [c, c, d] == [c, c] + [d];
    TotalsAppend([], c);
    TotalsAppend([c], c);
    TotalsAppend([c, c], d);
    assert TotalRestarts32([c, c, d]) == 7;
    RestartAlertRaised(pod, 5, false);
  }

  /** What the restart alert is for: it is raised exactly when the restarts of the pod add up to more than the
      threshold, and then it carries their total. */
  ghost predicate RestartAlertTruthful(pod: Pod, threshold: int32, overdue: bool) {
    && CountOf(PodDrafts(pod, threshold, overdue), PodRestartThreshold) ==
       (if TotalRestarts(pod.containers) > threshold then 1 else 0)
    && forall d :: d in PodDrafts(pod, threshold, overdue) && d.alertType == PodRestartThreshold ==>
         d.value == TotalRestarts(pod.containers) as real
  }

  lemma {:induction false} PresentIsCounted(drafts: seq<Draft>, d: Draft)
    requires d in drafts
    ensures CountOf(drafts, d.alertType) >= 1
  {
    var n := |drafts| - 1;
    if d != drafts[n] {
      var i :| 0 <= i < |drafts| && drafts[i] == d;
      assert drafts[..n][i] == d;
      PresentIsCounted(drafts[..n], d);
    }
  }

  lemma {:induction false} AbsentWhenNotCounted(drafts: seq<Draft>, d: Draft)
    requires CountOf(drafts, d.alertType) == 0
    ensures d !in drafts
  {
    if d in drafts {
      PresentIsCounted(drafts, d);
    }
  }

  lemma {:induction false} ClosingRestartAlert(pod: Pod, total: int32, threshold: int32, overdue: bool, d: Draft)
    requires d in ClosingDrafts(pod, total, threshold, overdue) && d.alertType == PodRestartThreshold
    ensures d.value == total as real
  {
    assert PodDraft(pod, PodPending, 1.0).alertType == PodPending;
    assert PodDraft(pod, PodRestartThreshold, total as real).value == total as real;
    hide PodDraft;
  }

  lemma {:induction false} RestartAlertCarries32BitTotal(pod: Pod, threshold: int32, overdue: bool, d: Draft)
    requires d in PodDrafts(pod, threshold, overdue) && d.alertType == PodRestartThreshold
    ensures d.value == TotalRestarts32(pod.containers) as real
  {
    hide CountOf, ScanDrafts, PhaseDrafts, ClosingDrafts, TotalRestarts32, CountIf;
    CountInPhase(pod, PodRestartThreshold);
    CountInScan(pod, pod.containers, PodRestartThreshold);
    AbsentWhenNotCounted(PhaseDrafts(pod), d);
    AbsentWhenNotCounted(ScanDrafts(pod, pod.containers), d);
    ClosingRestartAlert(pod, TotalRestarts32(pod.containers), threshold, overdue, d);
  }

  /** For all nonnegative counts, the restart alert is truthful if and only if the total fits 32 bits. */
  lemma {:induction false} RestartAlertTruthfulIff(pod: Pod, threshold: int32, overdue: bool)
    requires threshold >= 0
    requires forall k :: 0 <= k < |pod.containers| ==> pod.containers[k].restartCount >= 0
    ensures RestartAlertTruthful(pod, threshold, overdue) <==> TotalRestarts(pod.containers) <= INT32_MAX
  {
    hide CountOf, PodDrafts, PodDraft, TotalRestarts, TotalRestarts32;
    var total32 := TotalRestarts32(pod.containers);
    PodDraftCounts(pod, threshold, overdue, PodRestartThreshold);
    forall d | d in PodDrafts(pod, threshold, overdue) && d.alertType == PodRestartThreshold
      ensures d.value == total32 as real
    {
      RestartAlertCarries32BitTotal(pod, threshold, overdue, d);
    }
    if TotalRestarts(pod.containers) <= INT32_MAX {
      TotalRestartsWithoutOverflow(pod.containers);
    } else if total32 > threshold {
      RestartAlertRaised(pod, threshold, overdue);
      RestartDraftType(pod, total32 as real);
    }
  }

  lemma {:induction false} RestartDraftType(pod: Pod, value: real)
    ensures PodDraft(pod, PodRestartThreshold, value).alertType == PodRestartThreshold
  {
  }

  /** For all nonnegative counts, the alert is raised exactly over the threshold, whatever total it carries, except
      when the total leaves the 32-bit range and its wrapped value is not over the threshold. */
  lemma {:induction false} RestartAlertAgreesIff(pod: Pod, threshold: int32, overdue: bool)
    requires threshold >= 0
    requires forall k :: 0 <= k < |pod.containers| ==> pod.containers[k].restartCount >= 0
    ensures (CountOf(PodDrafts(pod, threshold, overdue), PodRestartThreshold) == 1
             <==> TotalRestarts(pod.containers) > threshold)
            <==> (TotalRestarts(pod.containers) <= INT32_MAX || TotalRestarts32(pod.containers) > threshold)
  {
    PodDraftCounts(pod, threshold, overdue, PodRestartThreshold);
    if TotalRestarts(pod.containers) <= INT32_MAX {
      TotalRestartsWithoutOverflow(pod.containers);
    }
    hide CountOf, PodDrafts;
  }

  // ----- Node alerts -----

  datatype ConditionType = Ready | MemoryPressure | DiskPressure | PIDPressure | OtherCondition(name: string)

  datatype ConditionStatus = ConditionTrue | ConditionFalse | ConditionUnknown

  datatype Condition = Condition(conditionType: ConditionType, status: ConditionStatus)

  datatype Node = Node(name: string, conditions: seq<Condition>)

  function NodeDraft(node: Node, alertType: AlertType): Draft {
    var severity := match alertType
      case NodeNotReady => Critical
      case NodeMemoryPressure => High
      case NodeDiskPressure => High
      case NodePIDPressure => Medium
      case _ => Medium;
    Draft(alertType, severity, K8sNode, 1.0, map[NodeLabel := node.name])
  }

  /** What a node condition reports, if it is one that calls for an alert. */
  function NodeProblem(c: Condition): Option<AlertType> {
    match c.conditionType
    case Ready => if c.status != ConditionTrue then Some(NodeNotReady) else None
    case MemoryPressure => if c.status == ConditionTrue then Some(NodeMemoryPressure) else None
    case DiskPressure => if c.status == ConditionTrue then Some(NodeDiskPressure) else None
    case PIDPressure => if c.status == ConditionTrue then Some(NodePIDPressure) else None
    case OtherCondition(_) => None
  }

  function NodeDrafts(node: Node, conditions: seq<Condition>): seq<Draft> {
    if conditions == [] then []
    else
      var rest := NodeDrafts(node, conditions[..|conditions| - 1]);
      match NodeProblem(conditions[|conditions| - 1])
      case Some(alertType) => rest + [NodeDraft(node, alertType)]
      case None => rest
  }

  method EvaluateNodeConditions(node: Node) returns (alerts: seq<Draft>)
    ensures alerts == NodeDrafts(node, node.conditions)
  {
    alerts := [];
    var cs := node.conditions;
    for i := 0 to |cs|
      invariant alerts == NodeDrafts(node, cs[..i])
    {
      assert cs[..i + 1][..i] == cs[..i];
      match cs[i].conditionType {
        case Ready =>
          if cs[i].status != ConditionTrue { alerts := alerts + [NodeDraft(node, NodeNotReady)]; }
        case MemoryPressure =>
          if cs[i].status == ConditionTrue { alerts := alerts + [NodeDraft(node, NodeMemoryPressure)]; }
        case DiskPressure =>
          if cs[i].status == ConditionTrue { alerts := alerts + [NodeDraft(node, NodeDiskPressure)]; }
        case PIDPressure =>
          if cs[i].status == ConditionTrue { alerts := alerts + [NodeDraft(node, NodePIDPressure)]; }
        case OtherCondition(_) =>
      }
    }
    assert cs[..|cs|] == cs;
  }

  /** A node is quiet exactly when each of its conditions is healthy. */
  lemma {:induction false} NodeDraftsEmptyIffHealthy(node: Node, conditions: seq<Condition>)
    ensures NodeDrafts(node, conditions) == [] <==>
            forall i :: 0 <= i < |conditions| ==> NodeProblem(conditions[i]).None?
    ensures |NodeDrafts(node, conditions)| <= |conditions|
  {
    if conditions != [] {
      var init := conditions[..|conditions| - 1];
      assert forall i :: 0 <= i < |init| ==> init[i] == conditions[i];
      NodeDraftsEmptyIffHealthy(node, init);
    }
  }

  ghost function CountProblems(conditions: seq<Condition>, alertType: AlertType): nat {
    if conditions == [] then 0
    else CountProblems(conditions[..|conditions| - 1], alertType)
         + (if NodeProblem(conditions[|conditions| - 1]) == Some(alertType) then 1 else 0)
  }

  /** Each type of node alert is raised once per condition that reports it, and carries the node's name. */
  lemma {:induction false} NodeDraftCounts(node: Node, conditions: seq<Condition>, alertType: AlertType)
    ensures CountOf(NodeDrafts(node, conditions), alertType) == CountProblems(conditions, alertType)
    ensures forall d :: d in NodeDrafts(node, conditions) ==> d == NodeDraft(node, d.alertType)
  {
    if conditions != [] {
      NodeDraftCounts(node, conditions[..|conditions| - 1], alertType);
      match NodeProblem(conditions[|conditions| - 1])
      case Some(reported) =>
        CountOfConcat(NodeDrafts(node, conditions[..|conditions| - 1]), [NodeDraft(node, reported)], alertType);
        CountOfWhen(true, NodeDraft(node, reported), alertType);
      case None =>
    }
  }

  // ----- Metric alerts -----

  datatype PodMetrics = PodMetrics(namespace: string, podName: string, cpuPercent: real, memoryPercent: real,
                                   cpuRequestMillis: int, memoryRequestBytes: int)

  datatype NodeMetrics = NodeMetrics(nodeName: string, cpuPercent: real, memoryPercent: real)

  datatype Thresholds = Thresholds(podCPU: real, podMemory: real, nodeCPU: real, nodeMemory: real)

  function PodMetricDraft(m: PodMetrics, alertType: AlertType, value: real): Draft {
    var labels := map[NamespaceLabel := m.namespace, PodLabel := m.podName];
    match alertType
    case PodCPUHigh => Draft(alertType, High, K8sPodMetrics, value, labels[MetricLabel := "cpu"])
    case PodMemoryHigh => Draft(alertType, High, K8sPodMetrics, value, labels[MetricLabel := "memory"])
    case _ => Draft(alertType, Medium, K8sPodMetrics, value, labels[MetricLabel := ""])
  }

  function NodeMetricDraft(m: NodeMetrics, alertType: AlertType, value: real): Draft {
    var labels := map[NodeLabel := m.nodeName];
    match alertType
    case NodeCPUHigh => Draft(alertType, Critical, K8sNodeMetrics, value, labels[MetricLabel := "cpu"])
    case NodeMemoryHigh => Draft(alertType, Critical, K8sNodeMetrics, value, labels[MetricLabel := "memory"])
    case _ => Draft(alertType, Medium, K8sNodeMetrics, value, labels[MetricLabel := ""])
  }

  function PodMetricDrafts(ms: seq<PodMetrics>, t: Thresholds): seq<Draft> {
    if ms == [] then []
    else
      var m := ms[|ms| - 1];
      PodMetricDrafts(ms[..|ms| - 1], t) +
      When(m.cpuRequestMillis > 0 && m.cpuPercent > t.podCPU, PodMetricDraft(m, PodCPUHigh, m.cpuPercent)) +
      When(m.memoryRequestBytes > 0 && m.memoryPercent > t.podMemory,
           PodMetricDraft(m, PodMemoryHigh, m.memoryPercent))
  }

  /** The loop skips a pod without requests before it looks at any threshold; the result does not need that. */
  method CheckPodMetrics(ms: seq<PodMetrics>, t: Thresholds) returns (alerts: seq<Draft>)
    ensures alerts == PodMetricDrafts(ms, t)
  {
    alerts := [];
    for i := 0 to |ms|
      invariant alerts == PodMetricDrafts(ms[..i], t)
    {
      assert ms[..i + 1][..i] == ms[..i];
      var m := ms[i];
      if m.cpuRequestMillis == 0 && m.memoryRequestBytes == 0 {
        continue;
      }
      if m.cpuRequestMillis > 0 && m.cpuPercent > t.podCPU {
        alerts := alerts + [PodMetricDraft(m, PodCPUHigh, m.cpuPercent)];
      }
      if m.memoryRequestBytes > 0 && m.memoryPercent > t.podMemory {
        alerts := alerts + [PodMetricDraft(m, PodMemoryHigh, m.memoryPercent)];
      }
    }
    assert ms[..|ms|] == ms;
  }

  predicate OverCPU(m: PodMetrics, t: Thresholds) {
    m.cpuRequestMillis > 0 && m.cpuPercent > t.podCPU
  }

  predicate OverMemory(m: PodMetrics, t: Thresholds) {
    m.memoryRequestBytes > 0 && m.memoryPercent > t.podMemory
  }

  /** One CPU alert per pod over the CPU threshold, one memory alert per pod over the memory threshold, and
      nothing else; a pod is measured only against the requests it has. */
  lemma {:induction false} PodMetricCounts(ms: seq<PodMetrics>, t: Thresholds, alertType: AlertType)
    ensures CountOf(PodMetricDrafts(ms, t), alertType) ==
            match alertType
            case PodCPUHigh => CountIf(ms, (m: PodMetrics) => OverCPU(m, t))
            case PodMemoryHigh => CountIf(ms, (m: PodMetrics) => OverMemory(m, t))
            case _ => 0
  {
    if ms != [] {
      var init, m := ms[..|ms| - 1], ms[|ms| - 1];
      var cpu, memory := PodMetricDraft(m, PodCPUHigh, m.cpuPercent), PodMetricDraft(m, PodMemoryHigh, m.memoryPercent);
      PodMetricCounts(init, t, alertType);
      CountOfThree(PodMetricDrafts(init, t), When(OverCPU(m, t), cpu), When(OverMemory(m, t), memory), alertType);
      CountOfWhen(OverCPU(m, t), cpu, alertType);
      CountOfWhen(OverMemory(m, t), memory, alertType);
    }
  }

  function NodeMetricDrafts(ms: seq<NodeMetrics>, t: Thresholds): seq<Draft> {
    if ms == [] then []
    else
      var m := ms[|ms| - 1];
      NodeMetricDrafts(ms[..|ms| - 1], t) +
      When(m.cpuPercent > t.nodeCPU, NodeMetricDraft(m, NodeCPUHigh, m.cpuPercent)) +
      When(m.memoryPercent > t.nodeMemory, NodeMetricDraft(m, NodeMemoryHigh, m.memoryPercent))
  }

  method CheckNodeMetrics(ms: seq<NodeMetrics>, t: Thresholds) returns (alerts: seq<Draft>)
    ensures alerts == NodeMetricDrafts(ms, t)
  {
    alerts := [];
    for i := 0 to |ms|
      invariant alerts == NodeMetricDrafts(ms[..i], t)
    {
      assert ms[..i + 1][..i] == ms[..i];
      var m := ms[i];
      if m.cpuPercent > t.nodeCPU {
        alerts := alerts + [NodeMetricDraft(m, NodeCPUHigh, m.cpuPercent)];
      }
      if m.memoryPercent > t.nodeMemory {
        alerts := alerts + [NodeMetricDraft(m, NodeMemoryHigh, m.memoryPercent)];
      }
    }
    assert ms[..|ms|] == ms;
  }

  predicate NodeOverCPU(m: NodeMetrics, t: Thresholds) {
    m.cpuPercent > t.nodeCPU
  }

  predicate NodeOverMemory(m: NodeMetrics, t: Thresholds) {
    m.memoryPercent > t.nodeMemory
  }

  /** One CPU alert per node over the CPU threshold, one memory alert per node over the memory threshold, and
      nothing else. */
  lemma {:induction false} NodeMetricCounts(ms: seq<NodeMetrics>, t: Thresholds, alertType: AlertType)
    ensures CountOf(NodeMetricDrafts(ms, t), alertType) ==
            match alertType
            case NodeCPUHigh => CountIf(ms, (m: NodeMetrics) => NodeOverCPU(m, t))
            case NodeMemoryHigh => CountIf(ms, (m: NodeMetrics) => NodeOverMemory(m, t))
            case _ => 0
  {
    if ms != [] {
      var init, m := ms[..|ms| - 1], ms[|ms| - 1];
      var cpu := NodeMetricDraft(m, NodeCPUHigh, m.cpuPercent);
      var memory := NodeMetricDraft(m, NodeMemoryHigh, m.memoryPercent);
      assert cpu.alertType == NodeCPUHigh && memory.alertType == NodeMemoryHigh;
      NodeMetricCounts(init, t, alertType);
      assert NodeMetricDrafts(ms, t) ==
             NodeMetricDrafts(init, t) + When(NodeOverCPU(m, t), cpu) + When(NodeOverMemory(m, t), memory);
      hide NodeMetricDraft, NodeMetricDrafts, When;
      CountOfThree(NodeMetricDrafts(init, t), When(NodeOverCPU(m, t), cpu), When(NodeOverMemory(m, t), memory),
                   alertType);
      CountOfWhen(NodeOverCPU(m, t), cpu, alertType);
      CountOfWhen(NodeOverMemory(m, t), memory, alertType);
      hide CountOf;
    }
  }

  // ----- Severities -----

  lemma {:induction false} PodDraftSeverity(pod: Pod, alertType: AlertType, value: real)
    ensures CollectorSeverity(PodDraft(pod, alertType, value).severity)
  {
  }

  lemma {:induction false} ScanSeverities(pod: Pod, cs: seq<Container>)
    ensures CollectorDrafts(ScanDrafts(pod, cs))
  {
    if cs != [] {
      ScanSeverities(pod, cs[..|cs| - 1]);
      forall alertType, value ensures CollectorSeverity(PodDraft(pod, alertType, value).severity) {
        PodDraftSeverity(pod, alertType, value);
      }
      hide PodDraft, CollectorSeverity;
      assert CollectorDrafts(ContainerDrafts(pod, cs[|cs| - 1]));
    }
  }

  lemma {:induction false} NodeSeverities(node: Node, conditions: seq<Condition>)
    ensures CollectorDrafts(NodeDrafts(node, conditions))
  {
    if conditions != [] {
      NodeSeverities(node, conditions[..|conditions| - 1]);
    }
  }

  lemma {:induction false} PodMetricSeverities(ms: seq<PodMetrics>, t: Thresholds)
    ensures CollectorDrafts(PodMetricDrafts(ms, t))
  {
    if ms != [] {
      PodMetricSeverities(ms[..|ms| - 1], t);
    }
  }

  lemma {:induction false} NodeMetricSeverities(ms: seq<NodeMetrics>, t: Thresholds)
    ensures CollectorDrafts(NodeMetricDrafts(ms, t))
  {
    if ms != [] {
      NodeMetricSeverities(ms[..|ms| - 1], t);
    }
  }

  lemma {:induction false} PodSeverities(pod: Pod, threshold: int32, overdue: bool)
    ensures CollectorDrafts(PodDrafts(pod, threshold, overdue))
  {
    ScanSeverities(pod, pod.containers);
    forall alertType, value ensures CollectorSeverity(PodDraft(pod, alertType, value).severity) {
      PodDraftSeverity(pod, alertType, value);
    }
    hide PodDraft, CollectorSeverity;
    assert CollectorDrafts(PhaseDrafts(pod));
    assert CollectorDrafts(ClosingDrafts(pod, TotalRestarts32(pod.containers), threshold, overdue));
  }
}

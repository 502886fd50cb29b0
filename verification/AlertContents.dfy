/** What the collectors' alerts say, in the terms of the watched objects: which conditions raise which alert, and
    what severity, source, value and labels it carries. */
module AlertContents {
  import opened Models
  import opened Options
  import opened Collectors

  lemma {:induction false} CountIfSame<T>(xs: seq<T>, p: T -> bool, q: T -> bool)
    requires forall i :: 0 <= i < |xs| ==> p(xs[i]) == q(xs[i])
    ensures CountIf(xs, p) == CountIf(xs, q)
  {
    if xs != [] {
      var init := xs[..|xs| - 1];
      assert forall i :: 0 <= i < |init| ==> init[i] == xs[i];
      CountIfSame(init, p, q);
    }
  }

  // ----- Pods -----

  /** How many alerts of each type a pod raises, by its phase, its age and the states of its containers. */
  lemma {:induction false} PodAlertsByCondition(pod: Pod, threshold: int32, overdue: bool)
    ensures var alerts := PodDrafts(pod, threshold, overdue);
            && CountOf(alerts, PodFailed) == (if pod.phase == Failed then 1 else 0)
            && CountOf(alerts, PodUnknown) == (if pod.phase == Unknown then 1 else 0)
            && CountOf(alerts, PodPending) == (if pod.phase == Pending && overdue then 1 else 0)
            && CountOf(alerts, PodRestartThreshold) == (if TotalRestarts32(pod.containers) > threshold then 1 else 0)
            && CountOf(alerts, PodOOMKilled) ==
               CountIf(pod.containers, (c: Container) => c.lastTerminated.Some? && c.lastTerminated.value.OOMKilled?)
            && CountOf(alerts, PodCrashLoop) ==
               CountIf(pod.containers, (c: Container) => c.waiting.Some? && c.waiting.value.reason.CrashLoopBackOff?)
            && CountOf(alerts, PodImagePullError) ==
               CountIf(pod.containers, (c: Container) => c.waiting.Some? && (c.waiting.value.reason.ImagePullBackOff?
                                                                             || c.waiting.value.reason.ErrImagePull?))
  {
    hide PodDrafts, CountOf, CountIf, TotalRestarts32;
    PodDraftCounts(pod, threshold, overdue, PodFailed);
    PodDraftCounts(pod, threshold, overdue, PodUnknown);
    PodDraftCounts(pod, threshold, overdue, PodPending);
    PodDraftCounts(pod, threshold, overdue, PodRestartThreshold);
    PodDraftCounts(pod, threshold, overdue, PodOOMKilled);
    PodDraftCounts(pod, threshold, overdue, PodCrashLoop);
    PodDraftCounts(pod, threshold, overdue, PodImagePullError);
    CountIfSame(pod.containers, IsOOMKilled,
                (c: Container) => c.lastTerminated.Some? && c.lastTerminated.value.OOMKilled?);
    CountIfSame(pod.containers, IsCrashLooping,
                (c: Container) => c.waiting.Some? && c.waiting.value.reason.CrashLoopBackOff?);
    CountIfSame(pod.containers, HasImagePullError,
                (c: Container) => c.waiting.Some? && (c.waiting.value.reason.ImagePullBackOff?
                                                      || c.waiting.value.reason.ErrImagePull?));
  }

  /** The alerts of one container, in order, with the value each carries. */
  lemma {:induction false} ContainerAlertValues(pod: Pod, c: Container)
    ensures forall d :: d in ContainerDrafts(pod, c) ==>
              && d == PodDraft(pod, d.alertType, d.value)
              && match d.alertType
                 case PodOOMKilled => d.value == c.restartCount as real
                 case PodCrashLoop => d.value == c.restartCount as real
                 case PodImagePullError => d.value == 1.0
                 case _ => false
    ensures |ContainerDrafts(pod, c)| <= 2
    ensures |ContainerDrafts(pod, c)| == 2 ==> ContainerDrafts(pod, c)[0].alertType == PodOOMKilled
  {
    PodDraftType(pod, PodOOMKilled, c.restartCount as real);
    PodDraftType(pod, PodCrashLoop, c.restartCount as real);
    PodDraftType(pod, PodImagePullError, 1.0);
    hide PodDraft;
  }

  lemma {:induction false} PodDraftType(pod: Pod, alertType: AlertType, value: real)
    ensures PodDraft(pod, alertType, value).alertType == alertType && PodDraft(pod, alertType, value).value == value
  {
  }

  lemma {:induction false} ScanAlertIsOfSomeContainer(pod: Pod, cs: seq<Container>, d: Draft)
    requires d in ScanDrafts(pod, cs)
    ensures exists c :: c in cs && d in ContainerDrafts(pod, c)
  {
    var init, last := cs[..|cs| - 1], cs[|cs| - 1];
    hide ContainerDrafts;
    if d !in ContainerDrafts(pod, last) {
      ScanAlertIsOfSomeContainer(pod, init, d);
      var c :| c in init && d in ContainerDrafts(pod, c);
      assert c in cs;
    }
  }

  /** The value of any alert of a pod. */
  ghost predicate PodAlertValue(pod: Pod, d: Draft) {
    match d.alertType
    case PodRestartThreshold => d.value == TotalRestarts32(pod.containers) as real
    case PodOOMKilled => exists c :: c in pod.containers && IsOOMKilled(c) && d.value == c.restartCount as real
    case PodCrashLoop => exists c :: c in pod.containers && IsCrashLooping(c) && d.value == c.restartCount as real
    case PodImagePullError => d.value == 1.0
    case PodFailed => d.value == 1.0
    case PodUnknown => d.value == 1.0
    case PodPending => d.value == 1.0
    case _ => false
  }

  lemma {:induction false} ContainerAlertForm(pod: Pod, d: Draft)
    requires d in ScanDrafts(pod, pod.containers)
    ensures d == PodDraft(pod, d.alertType, d.value) && PodAlertValue(pod, d)
  {
    ScanAlertIsOfSomeContainer(pod, pod.containers, d);
    var c :| c in pod.containers && d in ContainerDrafts(pod, c);
    ContainerAlertValues(pod, c);
    ContainerAlertType(pod, c, d);
    hide PodDraft, ContainerDrafts, ScanDrafts;
  }

  lemma {:induction false} PodLevelAlertForm(pod: Pod, threshold: int32, overdue: bool, d: Draft)
    requires d in PhaseDrafts(pod) || d in ClosingDrafts(pod, TotalRestarts32(pod.containers), threshold, overdue)
    ensures d == PodDraft(pod, d.alertType, d.value) && PodAlertValue(pod, d)
  {
    var total := TotalRestarts32(pod.containers);
    PodDraftType(pod, PodFailed, 1.0);
    PodDraftType(pod, PodUnknown, 1.0);
    PodDraftType(pod, PodPending, 1.0);
    PodDraftType(pod, PodRestartThreshold, total as real);
    hide PodDraft, TotalRestarts32;
  }

  lemma {:induction false} PodAlertForm(pod: Pod, threshold: int32, overdue: bool, d: Draft)
    requires d in PodDrafts(pod, threshold, overdue)
    ensures d == PodDraft(pod, d.alertType, d.value) && PodAlertValue(pod, d)
  {
    hide PodDraft, PodAlertValue, ScanDrafts, PhaseDrafts, ClosingDrafts, TotalRestarts32;
    if d in ScanDrafts(pod, pod.containers) {
      ContainerAlertForm(pod, d);
    } else {
      PodLevelAlertForm(pod, threshold, overdue, d);
    }
  }

  lemma {:induction false} PodDraftContents(pod: Pod, alertType: AlertType, value: real)
    ensures var d := PodDraft(pod, alertType, value);
            && d.source == K8sPod
            && NamespaceLabel in d.labels && d.labels[NamespaceLabel] == pod.namespace
            && PodLabel in d.labels && d.labels[PodLabel] == pod.name
            && (match alertType
                case PodFailed => d.severity == Critical
                case PodOOMKilled => d.severity == Critical
                case PodUnknown => d.severity == Critical
                case PodCrashLoop => d.severity == High
                case PodRestartThreshold => d.severity == High
                case PodImagePullError => d.severity == High
                case _ => d.severity == Medium)
            && (ContainerLabel in d.labels <==> RaisedPerContainer(alertType) || alertType == PodRestartThreshold)
            && (ReasonLabel in d.labels <==> alertType == PodCrashLoop)
            && NodeLabel !in d.labels && MetricLabel !in d.labels
  {
    hide FirstWith, HighestRestart;
  }

  /** Every alert of every pod: its source, its severity by type, the labels it has, and its value. */
  lemma {:induction false} PodAlertContents(pod: Pod, threshold: int32, overdue: bool, d: Draft)
    requires d in PodDrafts(pod, threshold, overdue)
    ensures d.source == K8sPod
    ensures NamespaceLabel in d.labels && d.labels[NamespaceLabel] == pod.namespace
    ensures PodLabel in d.labels && d.labels[PodLabel] == pod.name
    ensures match d.alertType
            case PodFailed => d.severity == Critical && d.value == 1.0
            case PodUnknown => d.severity == Critical && d.value == 1.0
            case PodOOMKilled =>
              d.severity == Critical
              && exists c :: c in pod.containers && IsOOMKilled(c) && d.value == c.restartCount as real
            case PodCrashLoop =>
              d.severity == High
              && exists c :: c in pod.containers && IsCrashLooping(c) && d.value == c.restartCount as real
            case PodImagePullError => d.severity == High && d.value == 1.0
            case PodRestartThreshold => d.severity == High && d.value == TotalRestarts32(pod.containers) as real
            case PodPending => d.severity == Medium && d.value == 1.0
            case _ => false
    ensures ContainerLabel in d.labels <==> RaisedPerContainer(d.alertType) || d.alertType == PodRestartThreshold
    ensures ReasonLabel in d.labels <==> d.alertType == PodCrashLoop
  {
    hide PodDraft, PodDrafts, TotalRestarts32, IsOOMKilled, IsCrashLooping;
    PodAlertForm(pod, threshold, overdue, d);
    PodDraftContents(pod, d.alertType, d.value);
  }

  /** The reason of a crash-loop alert is the waiting message of the container it names: the first in a crash loop. */
  lemma {:induction false} CrashLoopReason(pod: Pod, value: real, i: nat)
    requires i < |pod.containers| && IsCrashLooping(pod.containers[i])
    requires forall k :: 0 <= k < i ==> !IsCrashLooping(pod.containers[k])
    ensures var labels := PodDraft(pod, PodCrashLoop, value).labels;
            && ContainerLabel in labels && labels[ContainerLabel] == pod.containers[i].name
            && ReasonLabel in labels && labels[ReasonLabel] == pod.containers[i].waiting.value.message
  {
    var found := FirstWith(pod.containers, IsCrashLooping);
    assert found == Some(pod.containers[i]);
  }

  // ----- Nodes -----

  lemma {:induction false} ProblemsByCondition(conditions: seq<Condition>, alertType: AlertType, p: Condition -> bool)
    requires forall c :: p(c) <==> NodeProblem(c) == Some(alertType)
    ensures CountProblems(conditions, alertType) == CountIf(conditions, p)
  {
    if conditions != [] {
      ProblemsByCondition(conditions[..|conditions| - 1], alertType, p);
    }
  }

  /** A node raises one alert for each condition Ready that is not true, and one for each condition of memory, disk or
      PID pressure that is, and no other alert. */
  lemma {:induction false} NodeAlertsByCondition(node: Node, conditions: seq<Condition>)
    ensures var alerts := NodeDrafts(node, conditions);
            && CountOf(alerts, NodeNotReady) ==
               CountIf(conditions, (c: Condition) => c.conditionType.Ready? && !c.status.ConditionTrue?)
            && CountOf(alerts, NodeMemoryPressure) ==
               CountIf(conditions, (c: Condition) => c.conditionType.MemoryPressure? && c.status.ConditionTrue?)
            && CountOf(alerts, NodeDiskPressure) ==
               CountIf(conditions, (c: Condition) => c.conditionType.DiskPressure? && c.status.ConditionTrue?)
            && CountOf(alerts, NodePIDPressure) ==
               CountIf(conditions, (c: Condition) => c.conditionType.PIDPressure? && c.status.ConditionTrue?)
  {
    hide CountOf, CountIf, NodeDrafts, CountProblems;
    NodeDraftCounts(node, conditions, NodeNotReady);
    NodeDraftCounts(node, conditions, NodeMemoryPressure);
    NodeDraftCounts(node, conditions, NodeDiskPressure);
    NodeDraftCounts(node, conditions, NodePIDPressure);
    ProblemsByCondition(conditions, NodeNotReady,
                        (c: Condition) => c.conditionType.Ready? && !c.status.ConditionTrue?);
    ProblemsByCondition(conditions, NodeMemoryPressure,
                        (c: Condition) => c.conditionType.MemoryPressure? && c.status.ConditionTrue?);
    ProblemsByCondition(conditions, NodeDiskPressure,
                        (c: Condition) => c.conditionType.DiskPressure? && c.status.ConditionTrue?);
    ProblemsByCondition(conditions, NodePIDPressure,
                        (c: Condition) => c.conditionType.PIDPressure? && c.status.ConditionTrue?);
  }

  /** Every alert of every node: its type and severity, and that it names the node and nothing else. */
  lemma {:induction false} NodeAlertContents(node: Node, conditions: seq<Condition>, d: Draft)
    requires d in NodeDrafts(node, conditions)
    ensures d.source == K8sNode && d.value == 1.0 && d.labels == map[NodeLabel := node.name]
    ensures match d.alertType
            case NodeNotReady => d.severity == Critical
            case NodeMemoryPressure => d.severity == High
            case NodeDiskPressure => d.severity == High
            case NodePIDPressure => d.severity == Medium
            case _ => false
  {
    if d !in NodeDrafts(node, conditions[..|conditions| - 1]) {
      assert NodeProblem(conditions[|conditions| - 1]) == Some(d.alertType);
    } else {
      NodeAlertContents(node, conditions[..|conditions| - 1], d);
    }
  }

  /** A node's alerts come in the order of its conditions: those of the earlier conditions, then those of the later. */
  lemma {:induction false} NodeAlertsInOrder(node: Node, earlier: seq<Condition>, later: seq<Condition>)
    ensures NodeDrafts(node, earlier + later) == NodeDrafts(node, earlier) + NodeDrafts(node, later)
  {
    if later == [] {
      assert earlier + later == earlier;
    } else {
      var init := later[..|later| - 1];
      assert (earlier + later)[..|earlier + later| - 1] == earlier + init;
      NodeAlertsInOrder(node, earlier, init);
    }
  }

  /** A node is quiet if and only if every condition Ready is true and no pressure condition is. */
  lemma {:induction false} NodeIsQuietIff(node: Node)
    ensures NodeDrafts(node, node.conditions) == [] <==>
            forall i :: 0 <= i < |node.conditions| ==>
              var c := node.conditions[i];
              && (c.conditionType.Ready? ==> c.status.ConditionTrue?)
              && (c.conditionType.MemoryPressure? || c.conditionType.DiskPressure? || c.conditionType.PIDPressure? ==>
                    !c.status.ConditionTrue?)
  {
    NodeDraftsEmptyIffHealthy(node, node.conditions);
    hide NodeDrafts;
  }

  // ----- Metrics -----

  /** How many alerts a pod metrics check raises: one for each pod with a CPU request that is over the CPU threshold, one
      for each with a memory request that is over the memory threshold. */
  lemma {:induction false} PodMetricAlertsByCondition(ms: seq<PodMetrics>, t: Thresholds)
    ensures CountOf(PodMetricDrafts(ms, t), PodCPUHigh) ==
            CountIf(ms, (m: PodMetrics) => m.cpuRequestMillis > 0 && m.cpuPercent > t.podCPU)
    ensures CountOf(PodMetricDrafts(ms, t), PodMemoryHigh) ==
            CountIf(ms, (m: PodMetrics) => m.memoryRequestBytes > 0 && m.memoryPercent > t.podMemory)
  {
    hide CountOf, CountIf, PodMetricDrafts;
    PodMetricCounts(ms, t, PodCPUHigh);
    PodMetricCounts(ms, t, PodMemoryHigh);
    CountIfSame(ms, (m: PodMetrics) => OverCPU(m, t),
                (m: PodMetrics) => m.cpuRequestMillis > 0 && m.cpuPercent > t.podCPU);
    CountIfSame(ms, (m: PodMetrics) => OverMemory(m, t),
                (m: PodMetrics) => m.memoryRequestBytes > 0 && m.memoryPercent > t.podMemory);
  }

  /** How many alerts a node metrics check raises. */
  lemma {:induction false} NodeMetricAlertsByCondition(ms: seq<NodeMetrics>, t: Thresholds)
    ensures CountOf(NodeMetricDrafts(ms, t), NodeCPUHigh) == CountIf(ms, (m: NodeMetrics) => m.cpuPercent > t.nodeCPU)
    ensures CountOf(NodeMetricDrafts(ms, t), NodeMemoryHigh) ==
            CountIf(ms, (m: NodeMetrics) => m.memoryPercent > t.nodeMemory)
  {
    hide CountOf, CountIf, NodeMetricDrafts;
    NodeMetricCounts(ms, t, NodeCPUHigh);
    NodeMetricCounts(ms, t, NodeMemoryHigh);
    CountIfSame(ms, (m: NodeMetrics) => NodeOverCPU(m, t), (m: NodeMetrics) => m.cpuPercent > t.nodeCPU);
    CountIfSame(ms, (m: NodeMetrics) => NodeOverMemory(m, t), (m: NodeMetrics) => m.memoryPercent > t.nodeMemory);
  }

  /** Every alert of a pod metrics check: raised over a threshold, by a pod with a request, with these contents. */
  lemma {:induction false} PodMetricAlertContents(ms: seq<PodMetrics>, t: Thresholds, d: Draft)
    requires d in PodMetricDrafts(ms, t)
    ensures exists m :: m in ms &&
              var labels := map[NamespaceLabel := m.namespace, PodLabel := m.podName];
              ((m.cpuRequestMillis > 0 && m.cpuPercent > t.podCPU
                  && d == Draft(PodCPUHigh, High, K8sPodMetrics, m.cpuPercent, labels[MetricLabel := "cpu"]))
              || (m.memoryRequestBytes > 0 && m.memoryPercent > t.podMemory
                  && d == Draft(PodMemoryHigh, High, K8sPodMetrics, m.memoryPercent, labels[MetricLabel := "memory"])))
  {
    var init, last := ms[..|ms| - 1], ms[|ms| - 1];
    if d in PodMetricDrafts(init, t) {
      PodMetricAlertContents(init, t, d);
      assert forall m :: m in init ==> m in ms;
    } else {
      assert last in ms;
    }
  }

  /** Every alert of a node metrics check. */
  lemma {:induction false} NodeMetricAlertContents(ms: seq<NodeMetrics>, t: Thresholds, d: Draft)
    requires d in NodeMetricDrafts(ms, t)
    ensures exists m :: m in ms &&
              ((m.cpuPercent > t.nodeCPU
                  && d == Draft(NodeCPUHigh, Critical, K8sNodeMetrics, m.cpuPercent,
                                map[NodeLabel := m.nodeName, MetricLabel := "cpu"]))
              || (m.memoryPercent > t.nodeMemory
                  && d == Draft(NodeMemoryHigh, Critical, K8sNodeMetrics, m.memoryPercent,
                                map[NodeLabel := m.nodeName, MetricLabel := "memory"])))
  {
    var init, last := ms[..|ms| - 1], ms[|ms| - 1];
    if d in NodeMetricDrafts(init, t) {
      NodeMetricAlertContents(init, t, d);
      assert forall m :: m in init ==> m in ms;
    } else {
      assert last in ms;
    }
  }

  /** Metric alerts come in the order of the metrics. */
  lemma {:induction false} PodMetricAlertsInOrder(earlier: seq<PodMetrics>, later: seq<PodMetrics>, t: Thresholds)
    ensures PodMetricDrafts(earlier + later, t) == PodMetricDrafts(earlier, t) + PodMetricDrafts(later, t)
  {
    if later == [] {
      assert earlier + later == earlier;
    } else {
      assert (earlier + later)[..|earlier + later| - 1] == earlier + later[..|later| - 1];
      PodMetricAlertsInOrder(earlier, later[..|later| - 1], t);
      hide PodMetricDraft;
    }
  }

  lemma {:induction false} NodeMetricAlertsInOrder(earlier: seq<NodeMetrics>, later: seq<NodeMetrics>, t: Thresholds)
    ensures NodeMetricDrafts(earlier + later, t) == NodeMetricDrafts(earlier, t) + NodeMetricDrafts(later, t)
  {
    if later == [] {
      assert earlier + later == earlier;
    } else {
      var init, m := later[..|later| - 1], later[|later| - 1];
      assert (earlier + later)[..|earlier + later| - 1] == earlier + init;
      NodeMetricAlertsInOrder(earlier, init, t);
      hide NodeMetricDraft, When;
      var cpu := When(m.cpuPercent > t.nodeCPU, NodeMetricDraft(m, NodeCPUHigh, m.cpuPercent));
      var memory := When(m.memoryPercent > t.nodeMemory, NodeMetricDraft(m, NodeMemoryHigh, m.memoryPercent));
      assert NodeMetricDrafts(earlier + later, t) == NodeMetricDrafts(earlier + init, t) + cpu + memory;
      assert NodeMetricDrafts(later, t) == NodeMetricDrafts(init, t) + cpu + memory;
      hide *;
      var before, rest := NodeMetricDrafts(earlier, t), NodeMetricDrafts(init, t);
      ConcatAssociates(before, rest, cpu);
      ConcatAssociates(before, rest + cpu, memory);
    }
  }
}

/** The alert entity: the value that travels through the pipeline, and the shared object the store holds. */
module Models {
  import opened Options

  datatype Severity = Critical | High | Medium | Low | OtherSeverity(name: string)

  datatype Status = Firing | Resolved | OtherStatus(name: string)

  datatype Source = K8sPod | K8sNode | K8sPodMetrics | K8sNodeMetrics

  datatype AlertType =
    | PodFailed | PodOOMKilled | PodCrashLoop | PodRestartThreshold
    | PodImagePullError | PodPending | PodUnknown
    | NodeNotReady | NodeMemoryPressure | NodeDiskPressure | NodePIDPressure
    | PodCPUHigh | PodMemoryHigh | NodeCPUHigh | NodeMemoryHigh

  datatype LabelKey = NamespaceLabel | PodLabel | NodeLabel | ContainerLabel | ReasonLabel | MetricLabel

  /** What a builder decides about an alert; the alert_type label is the field `alertType`. */
  datatype Draft = Draft(alertType: AlertType, severity: Severity, source: Source, value: real,
                         labels: map<LabelKey, string>)

  datatype Alert = Alert(id: nat, status: Status, draft: Draft)

  /** Every new alert starts out firing; `id` stands for the generated UUID. */
  function NewAlert(id: nat, draft: Draft): (alert: Alert) {
    Alert(id, Firing, draft)
  }

  /** The severities a collector may give an alert. */
  predicate CollectorSeverity(severity: Severity) {
    severity.Critical? || severity.High? || severity.Medium?
  }

  /** The four severities that are counted. */
  predicate Listed(severity: Severity) {
    !severity.OtherSeverity?
  }

  predicate CollectorAlert(alert: Alert) {
    alert.status == Firing && CollectorSeverity(alert.draft.severity)
  }

  predicate CollectorDrafts(drafts: seq<Draft>) {
    forall i :: 0 <= i < |drafts| ==> CollectorSeverity(drafts[i].severity)
  }

  /** The alert object that observers, the store and the workers share by reference. */
  class AlertObject {
    const id: nat
    const draft: Draft
    const triggeredAt: nat
    const createdAt: nat
    var status: Status
    var resolvedAt: Option<nat>
    var updatedAt: nat

    constructor (id: nat, draft: Draft, now: nat)
      ensures Snapshot() == NewAlert(id, draft)
      ensures status == Firing && IsFiring()
      ensures resolvedAt == None && triggeredAt == createdAt == updatedAt == now
    {
      this.id := id;
      this.draft := draft;
      status := Firing;
      resolvedAt := None;
      triggeredAt, createdAt, updatedAt := now, now, now;
    }

    function Snapshot(): (alert: Alert)
      reads this
    {
      Alert(id, status, draft)
    }

    method Resolve(now: nat)
      modifies this
      ensures Snapshot() == old(Snapshot()).(status := Resolved)
      ensures !IsFiring()
      ensures resolvedAt == Some(now) && updatedAt == now
    {
      status := Resolved;
      resolvedAt := Some(now);
      updatedAt := now;
    }

    predicate IsFiring()
      reads this
    {
      status == Firing
    }
  }
}

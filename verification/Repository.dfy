/** The in-memory alert store, a slice of shared alert pointers, and the alert service in front of it. */
module Repository {
  import opened Models

  // ----- Counting over a log of alerts -----

  function CountByStatus(log: seq<Alert>, status: Status): nat {
    if log == [] then 0
    else CountByStatus(log[..|log| - 1], status) + (if log[|log| - 1].status == status then 1 else 0)
  }

  /** Firing alerts of the given severity. */
  function CountBySeverity(log: seq<Alert>, severity: Severity): nat {
    if log == [] then 0
    else
      var last := log[|log| - 1];
      CountBySeverity(log[..|log| - 1], severity)
      + (if last.draft.severity == severity && last.status == Firing then 1 else 0)
  }

  /** Firing alerts whose severity is none of the four that are counted. */
  ghost function CountUnlisted(log: seq<Alert>): nat {
    if log == [] then 0
    else
      var last := log[|log| - 1];
      CountUnlisted(log[..|log| - 1]) + (if !Listed(last.draft.severity) && last.status == Firing then 1 else 0)
  }

  datatype SeverityCounts = SeverityCounts(critical: nat, high: nat, medium: nat, low: nat)

  function Total(counts: SeverityCounts): nat {
    counts.critical + counts.high + counts.medium + counts.low
  }

  /** Four reads, each of the log as it is at that moment. */
  function FourReads(log0: seq<Alert>, log1: seq<Alert>, log2: seq<Alert>, log3: seq<Alert>): SeverityCounts {
    SeverityCounts(CountBySeverity(log0, Critical), CountBySeverity(log1, High),
                   CountBySeverity(log2, Medium), CountBySeverity(log3, Low))
  }

  /** The four counts miss exactly the firing alerts of other severities. */
  lemma {:induction false} SeverityTotals(log: seq<Alert>)
    ensures Total(FourReads(log, log, log, log)) + CountUnlisted(log) == CountByStatus(log, Firing)
  {
    if log != [] {
      var init, last := log[..|log| - 1], log[|log| - 1];
      SeverityTotals(init);
      var counts, before := FourReads(log, log, log, log), FourReads(init, init, init, init);
      var firing := if last.status == Firing then 1 else 0;
      assert CountByStatus(log, Firing) == CountByStatus(init, Firing) + firing;
      assert CountUnlisted(log) == CountUnlisted(init) + (if Listed(last.draft.severity) then 0 else firing);
      assert Total(counts) == Total(before) + (if Listed(last.draft.severity) then firing else 0);
    }
  }

  lemma {:induction false} UnlistedIsZero(log: seq<Alert>)
    ensures CountUnlisted(log) == 0 <==>
            forall i :: 0 <= i < |log| && log[i].status == Firing ==> Listed(log[i].draft.severity)
  {
    if log != [] {
      var init := log[..|log| - 1];
      UnlistedIsZero(init);
      assert forall i :: 0 <= i < |init| ==> init[i] == log[i];
    }
  }

  /** The severity counts partition the firing alerts exactly when each firing alert has a listed severity. */
  lemma {:induction false} SeveritiesPartitionIff(log: seq<Alert>)
    ensures Total(FourReads(log, log, log, log)) == CountByStatus(log, Firing) <==>
            forall i :: 0 <= i < |log| && log[i].status == Firing ==> Listed(log[i].draft.severity)
  {
    SeverityTotals(log);
    UnlistedIsZero(log);
  }

  lemma {:induction false} CountsGrow(log: seq<Alert>, longer: seq<Alert>, severity: Severity)
    requires log <= longer
    ensures CountBySeverity(log, severity) <= CountBySeverity(longer, severity)
    decreases |longer|
  {
    if |log| < |longer| {
      CountsGrow(log, longer[..|longer| - 1], severity);
    } else {
      assert log == longer;
    }
  }

  /** With alerts created between the four reads, the total still lies between the firing counts at the first
      and the last read. */
  lemma {:induction false} ConcurrentTotalIsBetween(log0: seq<Alert>, log1: seq<Alert>, log2: seq<Alert>,
                                                    log3: seq<Alert>)
    requires log0 <= log1 <= log2 <= log3
    requires forall i :: 0 <= i < |log3| ==> CollectorAlert(log3[i])
    ensures CountByStatus(log0, Firing) <= Total(FourReads(log0, log1, log2, log3)) <= CountByStatus(log3, Firing)
  {
    assert log1 <= log3 && log0 <= log2 && log0 <= log3;
    assert forall i :: 0 <= i < |log0| ==> log0[i] == log3[i];
    SeveritiesPartitionIff(log0);
    SeveritiesPartitionIff(log3);
    CountsGrow(log0, log3, Critical);
    CountsGrow(log0, log1, High);
    CountsGrow(log1, log3, High);
    CountsGrow(log0, log2, Medium);
    CountsGrow(log2, log3, Medium);
    CountsGrow(log0, log3, Low);
  }

  // ----- The store -----

  ghost function Snapshots(objects: seq<AlertObject>): (log: seq<Alert>)
    reads objects
    ensures |log| == |objects|
    ensures forall i :: 0 <= i < |objects| ==> log[i] == objects[i].Snapshot()
  {
    if objects == [] then []
    else Snapshots(objects[..|objects| - 1]) + [objects[|objects| - 1].Snapshot()]
  }

  /** A slice shares its backing array with whoever else holds a slice of it. */
  datatype Slice = Slice(backing: array<AlertObject?>, start: nat, end: nat)

  datatype SliceResult = Recent(slice: Slice) | OutOfRange

  /** A slice that was handed out, with the references it held at that time. */
  datatype Loan = Loan(slice: Slice, contents: seq<AlertObject?>)

  class InMemoryAlertRepo {
    var data: array<AlertObject?>
    var len: nat
    ghost var alerts: seq<AlertObject>
    ghost var loans: seq<Loan>
    ghost var backings: set<array<AlertObject?>>

    ghost predicate Valid()
      reads this, backings
    {
      && data in backings
      && len == |alerts| <= data.Length
      && (forall i :: 0 <= i < len ==> data[i] == alerts[i])
      && forall k :: 0 <= k < |loans| ==> LoanIntact(loans[k])
    }

    /** The holder of the slice still sees what it was given. */
    ghost predicate LoanIntact(loan: Loan)
      reads this, backings
    {
      && loan.slice.backing in backings
      && loan.slice.start <= loan.slice.end <= loan.slice.backing.Length
      && (loan.slice.backing == data ==> loan.slice.end <= len)
      && loan.slice.backing[loan.slice.start..loan.slice.end] == loan.contents
    }

    constructor ()
      ensures Valid() && alerts == [] && loans == [] && fresh(backings)
    {
      data := new AlertObject?[1000](_ => null);
      len := 0;
      alerts, loans := [], [];
      new;
      backings := {data};
    }

    /** Appends in place while there is room, and moves to a larger array when there is not. */
    method Create(alert: AlertObject)
      requires Valid()
      modifies this, data
      ensures Valid() && alerts == old(alerts) + [alert] && loans == old(loans)
      ensures fresh(backings - old(backings)) && old(backings) <= backings
      ensures data == old(data) || fresh(data)
    {
      if len < data.Length {
        data[len] := alert;
      } else {
        var capacity: nat :| capacity > len;
        var grown := new AlertObject?[capacity](_ => null);
        forall i | 0 <= i < len {
          grown[i] := data[i];
        }
        grown[len] := alert;
        data := grown;
        backings := backings + {grown};
      }
      len := len + 1;
      alerts := alerts + [alert];
      assert forall k :: 0 <= k < |loans| ==> old(LoanIntact(loans[k]));
    }

    /** The last min(limit, n) alerts, oldest first; a negative limit is out of the slice's bounds. */
    method GetRecent(limit: int) returns (r: SliceResult)
      requires Valid()
      modifies this
      ensures Valid() && alerts == old(alerts) && data == old(data) && backings == old(backings)
      ensures r.OutOfRange? <==> limit < 0
      ensures limit >= 0 ==>
                var n := |alerts|;
                var from := if limit < n then n - limit else 0;
                && r.slice.backing in backings
                && r.slice.start <= r.slice.end <= r.slice.backing.Length
                && r.slice.backing[r.slice.start..r.slice.end] == alerts[from..]
                && loans == old(loans) + [Loan(r.slice, alerts[from..])]
    {
      var start := len - limit;
      if start < 0 {
        start := 0;
      }
      if start > len {
        return OutOfRange;
      }
      r := Recent(Slice(data, start, len));
      loans := loans + [Loan(r.slice, alerts[start..])];
      assert data[start..len] == alerts[start..];
    }

    method Count() returns (count: nat)
      requires Valid()
      ensures count == |alerts|
    {
      count := len;
    }

    method CountWithStatus(status: Status) returns (count: nat)
      requires Valid()
      ensures count == CountByStatus(Snapshots(alerts), status)
    {
      count := 0;
      for i := 0 to len
        invariant count == CountByStatus(Snapshots(alerts)[..i], status)
      {
        assert Snapshots(alerts)[..i + 1][..i] == Snapshots(alerts)[..i];
        if data[i].status == status {
          count := count + 1;
        }
      }
      assert Snapshots(alerts)[..len] == Snapshots(alerts);
    }

    method CountWithSeverity(severity: Severity) returns (count: nat)
      requires Valid()
      ensures count == CountBySeverity(Snapshots(alerts), severity)
    {
      count := 0;
      for i := 0 to len
        invariant count == CountBySeverity(Snapshots(alerts)[..i], severity)
      {
        assert Snapshots(alerts)[..i + 1][..i] == Snapshots(alerts)[..i];
        if data[i].draft.severity == severity && data[i].status == Firing {
          count := count + 1;
        }
      }
      assert Snapshots(alerts)[..len] == Snapshots(alerts);
    }
  }

  // ----- The service -----

  /** Limits outside 1..1000 fall back to 100. */
  function EffectiveLimit(limit: int): (effective: nat)
    ensures 1 <= effective <= 1000
    ensures 1 <= limit <= 1000 ==> effective == limit
    ensures limit < 1 || limit > 1000 ==> effective == 100
  {
    if limit <= 0 || limit > 1000 then 100 else limit
  }

  /** The last min(effective limit, n) of n alerts. */
  ghost function Requested(alerts: seq<AlertObject>, limit: int): seq<AlertObject> {
    var n := |alerts|;
    var size := if EffectiveLimit(limit) < n then EffectiveLimit(limit) else n;
    alerts[n - size..]
  }

  /** For every requested limit, a slice of the last min(effective limit, n) alerts, which is recorded as handed
      out, next to those that were handed out before. */
  method GetRecentAlerts(repo: InMemoryAlertRepo, limit: int) returns (slice: Slice)
    requires repo.Valid()
    modifies repo
    ensures repo.Valid() && repo.alerts == old(repo.alerts) && repo.backings == old(repo.backings)
    ensures repo.data == old(repo.data)
    ensures slice.backing in repo.backings && slice.start <= slice.end <= slice.backing.Length
    ensures slice.backing[slice.start..slice.end] == Requested(repo.alerts, limit)
    ensures repo.loans == old(repo.loans) + [Loan(slice, Requested(repo.alerts, limit))]
  {
    var effective := limit;
    if effective <= 0 || effective > 1000 {
      effective := 100;
    }
    var r := repo.GetRecent(effective);
    slice := r.slice;
  }

  /** What a caller was given still shows the same references after any number of alerts created since, and so does
      everything handed out before. */
  method HoldWhileCreating(repo: InMemoryAlertRepo, limit: int, later: seq<AlertObject>) returns (slice: Slice)
    requires repo.Valid()
    modifies repo, repo.data
    ensures repo.Valid() && repo.alerts == old(repo.alerts) + later
    ensures slice.start <= slice.end <= slice.backing.Length
    ensures slice.backing[slice.start..slice.end] == Requested(old(repo.alerts), limit)
    ensures forall k :: 0 <= k < |old(repo.loans)| ==>
              && k < |repo.loans| && repo.loans[k] == old(repo.loans)[k] && repo.LoanIntact(repo.loans[k])
  {
    slice := GetRecentAlerts(repo, limit);
    ghost var loans := repo.loans;
    for i := 0 to |later|
      invariant repo.Valid() && repo.loans == loans
      invariant repo.alerts == old(repo.alerts) + later[..i]
      invariant repo.data == old(repo.data) || fresh(repo.data)
    {
      repo.Create(later[i]);
    }
    assert repo.LoanIntact(repo.loans[|repo.loans| - 1]);
  }

  method GetSeverityCounts(repo: InMemoryAlertRepo) returns (counts: SeverityCounts)
    requires repo.Valid()
    ensures var log := Snapshots(repo.alerts);
            counts == FourReads(log, log, log, log)
            && Total(counts) + CountUnlisted(log) == CountByStatus(log, Firing)
            && counts.critical == CountBySeverity(log, Critical) && counts.high == CountBySeverity(log, High)
            && counts.medium == CountBySeverity(log, Medium) && counts.low == CountBySeverity(log, Low)
  {
    hide CountBySeverity, CountByStatus, CountUnlisted, Snapshots, Total;
    ghost var log := Snapshots(repo.alerts);
    var critical := repo.CountWithSeverity(Critical);
    var high := repo.CountWithSeverity(High);
    var medium := repo.CountWithSeverity(Medium);
    var low := repo.CountWithSeverity(Low);
    counts := SeverityCounts(critical, high, medium, low);
    SeverityTotals(log);
  }
}

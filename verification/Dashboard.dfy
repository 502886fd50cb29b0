/** The state of the web dashboard: counters and a 100-entry window that are updated alert by alert, against a
    recount of the full, unbounded log. */
module Dashboard {
  import opened Models
  import opened Sums

  /** An alert as the page sees it; alerts that come from the Go side have no fingerprint (the empty string). */
  datatype Entry = Entry(id: nat, status: Status, severity: Severity, fingerprint: string)

  datatype Counts = Counts(critical: int, high: int, medium: int, low: int)

  datatype Health = Healthy | Warning | Degraded | CriticalHealth

  datatype Toast = Toast(id: nat, severity: Severity)

  datatype View = View(alerts: seq<Entry>, counts: Counts, total: int, active: int, health: Health,
                       unread: int, read: set<nat>, toasts: seq<Toast>)

  const WINDOW: nat := 100
  const MAX_UNREAD: nat := 50
  const MAX_TOASTS: nat := 3

  /** The page before its first fetch. */
  function NewView(): View {
    View([], Counts(0, 0, 0, 0), 0, 0, Healthy, 0, {}, [])
  }

  function FromModel(alert: Alert): Entry {
    Entry(alert.id, alert.status, alert.draft.severity, "")
  }

  // ----- The page's functions -----

  predicate SameAlert(shown: Entry, alert: Entry) {
    shown.id == alert.id || (shown.fingerprint != "" && shown.fingerprint == alert.fingerprint)
  }

  /** The first position of the alert in the window, or the length of the window. */
  function FindIndex(alerts: seq<Entry>, alert: Entry): (index: nat)
    ensures index <= |alerts|
    ensures index < |alerts| ==> SameAlert(alerts[index], alert)
    ensures forall i :: 0 <= i < index ==> !SameAlert(alerts[i], alert)
  {
    if alerts == [] then 0
    else if SameAlert(alerts[0], alert) then 0
    else 1 + FindIndex(alerts[1..], alert)
  }

  function Max0(x: int): int {
    if x < 0 then 0 else x
  }

  function Increment(counts: Counts, severity: Severity): Counts {
    match severity
    case Critical => counts.(critical := counts.critical + 1)
    case High => counts.(high := counts.high + 1)
    case Medium => counts.(medium := counts.medium + 1)
    case Low => counts.(low := counts.low + 1)
    case OtherSeverity(_) => counts
  }

  function Decrement(counts: Counts, severity: Severity): Counts {
    match severity
    case Critical => counts.(critical := Max0(counts.critical - 1))
    case High => counts.(high := Max0(counts.high - 1))
    case Medium => counts.(medium := Max0(counts.medium - 1))
    case Low => counts.(low := Max0(counts.low - 1))
    case OtherSeverity(_) => counts
  }

  function HealthOf(counts: Counts): Health {
    if counts.critical > 0 then CriticalHealth
    else if counts.high > 3 then Degraded
    else if counts.high > 0 then Warning
    else Healthy
  }

  function UpdateSystemHealth(v: View): View {
    v.(health := HealthOf(v.counts))
  }

  function UpdateShown(v: View, index: nat, alert: Entry): View
    requires index < |v.alerts|
  {
    var old' := v.alerts[index];
    var replaced := v.(alerts := v.alerts[index := alert]);
    if old'.status == alert.status then replaced
    else if old'.status == Firing then
      UpdateSystemHealth(replaced.(active := Max0(v.active - 1), counts := Decrement(v.counts, old'.severity)))
    else if alert.status == Firing then
      UpdateSystemHealth(replaced.(active := v.active + 1, counts := Increment(v.counts, alert.severity)))
    else UpdateSystemHealth(replaced)
  }

  function ShowNew(v: View, alert: Entry): View {
    var grown := [alert] + v.alerts;
    var shown := v.(total := v.total + 1, alerts := if |grown| > WINDOW then grown[..WINDOW] else grown);
    if alert.status == Firing then
      UpdateSystemHealth(shown.(
        active := v.active + 1,
        counts := Increment(v.counts, alert.severity),
        unread := if alert.id !in v.read && v.unread < MAX_UNREAD then v.unread + 1 else v.unread))
    else shown
  }

  function AddAlert(v: View, alert: Entry): View {
    var index := FindIndex(v.alerts, alert);
    if index < |v.alerts| then UpdateShown(v, index, alert) else ShowNew(v, alert)
  }

  predicate Unread(e: Entry, read: set<nat>) {
    e.status == Firing && e.id !in read
  }

  function CountUnread(alerts: seq<Entry>, read: set<nat>): (n: nat)
    ensures n <= |alerts|
  {
    if alerts == [] then 0
    else CountUnread(alerts[..|alerts| - 1], read) + (if Unread(alerts[|alerts| - 1], read) then 1 else 0)
  }

  /** What the four parallel requests bring back. */
  datatype Response = Response(alerts: seq<Entry>, total: nat, active: nat, counts: Counts)

  function FetchSucceeds(v: View, r: Response): View {
    UpdateSystemHealth(v.(alerts := r.alerts, total := r.total, active := r.active, counts := r.counts,
                          unread := CountUnread(r.alerts, v.read)))
  }

  function FetchFails(v: View, toastId: nat): View {
    ShowToast(v, Toast(toastId, High)).(health := Degraded)
  }

  function MarkAlertAsRead(v: View, alert: Entry): View {
    if alert.id in v.read then v
    else v.(read := v.read + {alert.id}, unread := if v.unread > 0 then v.unread - 1 else v.unread)
  }

  function FiringIds(alerts: seq<Entry>): set<nat> {
    set i | 0 <= i < |alerts| && alerts[i].status == Firing :: alerts[i].id
  }

  function MarkAllRead(v: View): View {
    v.(read := v.read + FiringIds(v.alerts), unread := 0)
  }

  function ShowToast(v: View, toast: Toast): View {
    v.(toasts := (if |v.toasts| >= MAX_TOASTS then v.toasts[1..] else v.toasts) + [toast])
  }

  function Without(toasts: seq<Toast>, id: nat): (rest: seq<Toast>)
    ensures |rest| <= |toasts|
  {
    if toasts == [] then []
    else Without(toasts[..|toasts| - 1], id) + (if toasts[|toasts| - 1].id != id then [toasts[|toasts| - 1]] else [])
  }

  function RemoveToast(v: View, id: nat): View {
    v.(toasts := Without(v.toasts, id))
  }

  // ----- The full log and its recount -----

  /** The log, newest first: an alert whose id is known replaces its old entry, any other goes to the front. */
  function LogAdd(log: seq<Entry>, alert: Entry): seq<Entry> {
    if exists i :: 0 <= i < |log| && log[i].id == alert.id then
      var i := Position(log, alert.id);
      log[i := alert]
    else [alert] + log
  }

  function Position(log: seq<Entry>, id: nat): (i: nat)
    requires exists i :: 0 <= i < |log| && log[i].id == id
    ensures i < |log| && log[i].id == id
    ensures forall j :: 0 <= j < i ==> log[j].id != id
  {
    if log[0].id == id then 0
    else
      assert forall i :: 0 < i < |log| ==> log[i] == log[1..][i - 1];
      1 + Position(log[1..], id)
  }

  datatype Selector = AnySeverity | Only(severity: Severity)

  function Weight(e: Entry, which: Selector): nat {
    if e.status == Firing && (which.AnySeverity? || e.severity == which.severity) then 1 else 0
  }

  /** The number of firing alerts in the log, of any severity or of one. */
  function Tally(log: seq<Entry>, which: Selector): nat {
    if log == [] then 0 else Weight(log[0], which) + Tally(log[1..], which)
  }

  function Recount(log: seq<Entry>): Counts {
    Counts(Tally(log, Only(Critical)), Tally(log, Only(High)), Tally(log, Only(Medium)), Tally(log, Only(Low)))
  }

  function Newest(log: seq<Entry>): seq<Entry> {
    if |log| > WINDOW then log[..WINDOW] else log
  }

  ghost predicate DistinctIds(log: seq<Entry>) {
    forall i, j :: 0 <= i < j < |log| ==> log[i].id != log[j].id
  }

  ghost predicate NoFingerprints(log: seq<Entry>) {
    forall i :: 0 <= i < |log| ==> log[i].fingerprint == ""
  }

  /** The page shows the truth about the log. */
  ghost predicate Tracks(v: View, log: seq<Entry>) {
    && DistinctIds(log) && NoFingerprints(log)
    && v.alerts == Newest(log)
    && v.total == |log|
    && v.active == Tally(log, AnySeverity)
    && v.counts == Recount(log)
  }

  /** The updates the page can follow: the alert is not one that has left the window, and a firing alert that
      stays firing does not move into, out of or between the four counted severities. */
  predicate Followed(log: seq<Entry>, alert: Entry) {
    forall i :: 0 <= i < |log| && log[i].id == alert.id ==>
      && i < WINDOW
      && (log[i].status == Firing && alert.status == Firing && log[i].severity != alert.severity ==>
            !Listed(log[i].severity) && !Listed(alert.severity))
  }

  lemma {:induction false} TallyUpdate(log: seq<Entry>, i: nat, alert: Entry, which: Selector)
    requires i < |log|
    ensures Tally(log[i := alert], which) + Weight(log[i], which) == Tally(log, which) + Weight(alert, which)
  {
    if i == 0 {
      assert log[0 := alert][1..] == log[1..];
    } else {
      assert log[i := alert][1..] == log[1..][i - 1 := alert];
      TallyUpdate(log[1..], i - 1, alert, which);
    }
  }

  lemma {:induction false} RecountUpdate(log: seq<Entry>, i: nat, alert: Entry)
    requires i < |log|
    ensures forall which :: Tally(log[i := alert], which) + Weight(log[i], which) == Tally(log, which) + Weight(alert, which)
  {
    forall which {
      TallyUpdate(log, i, alert, which);
    }
  }

  lemma {:induction false} TallyFront(log: seq<Entry>, alert: Entry, which: Selector)
    ensures Tally([alert] + log, which) == Weight(alert, which) + Tally(log, which)
  {
    assert ([alert] + log)[1..] == log;
  }

  lemma {:induction false} FindIndexIsPosition(log: seq<Entry>, alert: Entry)
    requires DistinctIds(log) && NoFingerprints(log)
    ensures var index := FindIndex(Newest(log), alert);
            forall i :: 0 <= i < |log| && log[i].id == alert.id ==>
              (if i < WINDOW then index == i else index == |Newest(log)|)
  {
    var index := FindIndex(Newest(log), alert);
    forall i | 0 <= i < |log| && log[i].id == alert.id
      ensures if i < WINDOW then index == i else index == |Newest(log)|
    {
      if i < WINDOW {
        assert SameAlert(Newest(log)[i], alert);
      }
    }
  }

  /** A new alert at the front. */
  lemma {:induction false} NewAlertTracks(v: View, log: seq<Entry>, alert: Entry)
    requires Tracks(v, log) && alert.fingerprint == ""
    requires forall i :: 0 <= i < |log| ==> log[i].id != alert.id
    ensures Tracks(AddAlert(v, alert), [alert] + log)
  {
    TallyFront(log, alert, AnySeverity);
    TallyFront(log, alert, Only(Critical));
    TallyFront(log, alert, Only(High));
    TallyFront(log, alert, Only(Medium));
    TallyFront(log, alert, Only(Low));
    assert FindIndex(v.alerts, alert) == |v.alerts|;
    assert AddAlert(v, alert).alerts == Newest([alert] + log);
  }

  /** An alert in the window: the counters follow exactly when the update is one the page can follow. */
  lemma {:induction false} UpdateTracksIff(v: View, log: seq<Entry>, i: nat, alert: Entry)
    requires Tracks(v, log) && alert.fingerprint == ""
    requires i < |log| && i < WINDOW && log[i].id == alert.id
    ensures Tracks(AddAlert(v, alert), log[i := alert]) <==> Followed(log, alert)
  {
    FindIndexIsPosition(log, alert);
    RecountUpdate(log, i, alert);
    assert Newest(log[i := alert]) == Newest(log)[i := alert];
  }

  /** An alert that has left the window is taken for a new one, and the totals are off from then on. */
  lemma {:induction false} EvictedAlertIsMiscounted(v: View, log: seq<Entry>, i: nat, alert: Entry)
    requires Tracks(v, log)
    requires WINDOW <= i < |log| && log[i].id == alert.id
    ensures AddAlert(v, alert).total == |LogAdd(log, alert)| + 1
  {
    FindIndexIsPosition(log, alert);
  }

  /** After any alert, the page still tells the truth about the log if and only if it can follow the update. */
  lemma {:induction false} AddAlertTracksIff(v: View, log: seq<Entry>, alert: Entry)
    requires Tracks(v, log) && alert.fingerprint == ""
    ensures Tracks(AddAlert(v, alert), LogAdd(log, alert)) <==> Followed(log, alert)
  {
    if exists i :: 0 <= i < |log| && log[i].id == alert.id {
      var i := Position(log, alert.id);
      if i < WINDOW {
        UpdateTracksIff(v, log, i, alert);
      } else {
        EvictedAlertIsMiscounted(v, log, i, alert);
      }
    } else {
      NewAlertTracks(v, log, alert);
    }
    hide Tally, Recount, AddAlert;
  }

  lemma {:induction false} TallyPositive(log: seq<Entry>, i: nat, which: Selector)
    requires i < |log|
    ensures Tally(log, which) >= Weight(log[i], which)
  {
    if i > 0 {
      assert log[1..][i - 1] == log[i];
      TallyPositive(log[1..], i - 1, which);
    }
  }

  /** While the page tracks the log, the clamps at zero never change a counter. */
  lemma {:induction false} ClampsNeverBind(v: View, log: seq<Entry>, i: nat)
    requires Tracks(v, log) && i < |v.alerts| && v.alerts[i].status == Firing
    ensures Max0(v.active - 1) == v.active - 1
    ensures match v.alerts[i].severity
            case Critical => Decrement(v.counts, Critical).critical == v.counts.critical - 1
            case High => Decrement(v.counts, High).high == v.counts.high - 1
            case Medium => Decrement(v.counts, Medium).medium == v.counts.medium - 1
            case Low => Decrement(v.counts, Low).low == v.counts.low - 1
            case OtherSeverity(_) => true
  {
    TallyPositive(log, i, AnySeverity);
    TallyPositive(log, i, Only(v.alerts[i].severity));
  }

  // ----- The unread count against a recount of the window -----

  ghost predicate UnreadExact(v: View) {
    v.unread == CountUnread(v.alerts, v.read)
  }

  lemma {:induction false} CountUnreadFront(alerts: seq<Entry>, read: set<nat>, alert: Entry)
    ensures CountUnread([alert] + alerts, read) == (if Unread(alert, read) then 1 else 0) + CountUnread(alerts, read)
  {
    if alerts == [] {
      assert [alert] + alerts == [alert] && [alert][..0] == [];
    } else {
      var init := alerts[..|alerts| - 1];
      CountUnreadFront(init, read, alert);
      assert ([alert] + alerts)[..|alerts|] == [alert] + init;
    }
  }

  lemma {:induction false} CountUnreadUpdate(alerts: seq<Entry>, read: set<nat>, i: nat, alert: Entry)
    requires i < |alerts|
    ensures CountUnread(alerts[i := alert], read) + (if Unread(alerts[i], read) then 1 else 0) ==
            CountUnread(alerts, read) + (if Unread(alert, read) then 1 else 0)
  {
    var n := |alerts| - 1;
    if i == n {
      assert alerts[i := alert][..n] == alerts[..n];
    } else {
      assert alerts[i := alert][..n] == alerts[..n][i := alert];
      CountUnreadUpdate(alerts[..n], read, i, alert);
    }
  }

  predicate ShownUnread(alerts: seq<Entry>, read: set<nat>, id: nat) {
    exists i :: 0 <= i < |alerts| && alerts[i].id == id && Unread(alerts[i], read)
  }

  lemma {:induction false} CountUnreadAfterReading(alerts: seq<Entry>, read: set<nat>, id: nat)
    requires DistinctIds(alerts)
    ensures CountUnread(alerts, read + {id}) + (if ShownUnread(alerts, read, id) then 1 else 0) ==
            CountUnread(alerts, read)
  {
    if alerts != [] {
      var n := |alerts| - 1;
      var init, last := alerts[..n], alerts[n];
      CountUnreadAfterReading(init, read, id);
      assert Unread(last, read + {id}) <==> Unread(last, read) && last.id != id;
      if last.id == id {
        assert !ShownUnread(init, read, id);
        assert ShownUnread(alerts, read, id) <==> Unread(alerts[n], read);
      } else if ShownUnread(alerts, read, id) {
        var i :| 0 <= i < |alerts| && alerts[i].id == id && Unread(alerts[i], read);
        assert init[i].id == id && Unread(init[i], read);
      }
    }
  }

  /** Opening an alert keeps the unread count exact unless the alert has left the window or is not firing there
      while other alerts are still unread: then one of those is uncounted. */
  lemma {:induction false} OpeningKeepsUnreadExactIff(v: View, alert: Entry)
    requires UnreadExact(v) && DistinctIds(v.alerts)
    ensures UnreadExact(MarkAlertAsRead(v, alert)) <==>
            alert.id in v.read || v.unread == 0 || ShownUnread(v.alerts, v.read, alert.id)
  {
    CountUnreadAfterReading(v.alerts, v.read, alert.id);
  }

  /** A new alert keeps the unread count exact unless the cap stops it from being counted, or it pushes an
      unread alert out of the window: one without the other. */
  lemma {:induction false} NewAlertKeepsUnreadExactIff(v: View, alert: Entry)
    requires UnreadExact(v) && |v.alerts| <= WINDOW && FindIndex(v.alerts, alert) == |v.alerts|
    ensures UnreadExact(AddAlert(v, alert)) <==>
            var uncounted := Unread(alert, v.read) && v.unread >= MAX_UNREAD;
            var pushedOut := |v.alerts| == WINDOW && Unread(v.alerts[WINDOW - 1], v.read);
            uncounted == pushedOut
  {
    CountUnreadFront(v.alerts, v.read, alert);
    var grown := [alert] + v.alerts;
    if |v.alerts| == WINDOW {
      assert grown[|grown| - 1] == v.alerts[WINDOW - 1];
      assert CountUnread(grown, v.read) ==
             CountUnread(grown[..WINDOW], v.read) + (if Unread(grown[WINDOW], v.read) then 1 else 0);
    }
  }

  /** An update in the window never touches the unread count, so it is exact afterwards if and only if the alert
      is as unread as the entry it replaces. */
  lemma {:induction false} UpdateKeepsUnreadExactIff(v: View, alert: Entry)
    requires UnreadExact(v) && FindIndex(v.alerts, alert) < |v.alerts|
    ensures UnreadExact(AddAlert(v, alert)) <==>
            (Unread(alert, v.read) <==> Unread(v.alerts[FindIndex(v.alerts, alert)], v.read))
  {
    CountUnreadUpdate(v.alerts, v.read, FindIndex(v.alerts, alert), alert);
  }

  // ----- Any number of alerts -----

  function AddAll(v: View, alerts: seq<Entry>): View
    decreases |alerts|
  {
    if alerts == [] then v else AddAll(AddAlert(v, alerts[0]), alerts[1..])
  }

  function LogAddAll(log: seq<Entry>, alerts: seq<Entry>): seq<Entry>
    decreases |alerts|
  {
    if alerts == [] then log else LogAddAll(LogAdd(log, alerts[0]), alerts[1..])
  }

  predicate FollowedAll(log: seq<Entry>, alerts: seq<Entry>)
    decreases |alerts|
  {
    alerts == []
    || (alerts[0].fingerprint == "" && Followed(log, alerts[0]) && FollowedAll(LogAdd(log, alerts[0]), alerts[1..]))
  }

  /** Over any sequence of alerts the page can follow, every counter equals the recount of the full log, and
      the window is its newest hundred entries. */
  lemma {:induction false} PageTracksLog(v: View, log: seq<Entry>, alerts: seq<Entry>)
    requires Tracks(v, log) && FollowedAll(log, alerts)
    ensures Tracks(AddAll(v, alerts), LogAddAll(log, alerts))
    decreases |alerts|
  {
    if alerts != [] {
      AddAlertTracksIff(v, log, alerts[0]);
      PageTracksLog(AddAlert(v, alerts[0]), LogAdd(log, alerts[0]), alerts[1..]);
    }
  }

  /** Alerts that the log does not know yet, each with its own identifier, as the pipeline issues them. */
  ghost predicate FreshFor(log: seq<Entry>, alerts: seq<Entry>) {
    && DistinctIds(alerts) && NoFingerprints(alerts)
    && forall i, j :: 0 <= i < |alerts| && 0 <= j < |log| ==> alerts[i].id != log[j].id
  }

  function NewestFirst(alerts: seq<Entry>): (log: seq<Entry>)
    ensures |log| == |alerts|
  {
    if alerts == [] then [] else NewestFirst(alerts[1..]) + [alerts[0]]
  }

  /** Fresh alerts are always followed, and the log they lead to is theirs, newest first, before the old one. */
  lemma {:induction false} FreshAlertsAreFollowed(log: seq<Entry>, alerts: seq<Entry>)
    requires FreshFor(log, alerts)
    ensures FollowedAll(log, alerts)
    ensures LogAddAll(log, alerts) == NewestFirst(alerts) + log
    decreases |alerts|
  {
    if alerts != [] {
      var longer := [alerts[0]] + log;
      assert LogAdd(log, alerts[0]) == longer;
      assert forall i :: 0 <= i < |alerts| - 1 ==> alerts[1..][i] == alerts[i + 1];
      assert FreshFor(longer, alerts[1..]);
      FreshAlertsAreFollowed(longer, alerts[1..]);
      assert NewestFirst(alerts[1..]) + longer == NewestFirst(alerts[1..]) + [alerts[0]] + log;
    }
  }

  lemma {:induction false} NewestFirstAt(entries: seq<Entry>, j: nat)
    requires j < |entries|
    ensures NewestFirst(entries)[j] == entries[|entries| - 1 - j]
  {
    if j < |entries| - 1 {
      NewestFirstAt(entries[1..], j);
    }
  }

  lemma {:induction false} NewestFirstConcat(older: seq<Entry>, newer: seq<Entry>)
    ensures NewestFirst(older + newer) == NewestFirst(newer) + NewestFirst(older)
  {
    if older == [] {
      assert older + newer == newer;
    } else {
      NewestFirstConcat(older[1..], newer);
      assert (older + newer)[1..] == older[1..] + newer;
    }
  }

  // ----- Alerts that arrive in another order, or not at all -----

  lemma {:induction false} TallyConcat(a: seq<Entry>, b: seq<Entry>, which: Selector)
    ensures Tally(a + b, which) == Tally(a, which) + Tally(b, which)
  {
    if a == [] {
      assert a + b == b;
    } else {
      assert (a + b)[1..] == a[1..] + b;
      TallyConcat(a[1..], b, which);
    }
  }

  lemma {:induction false} TallyOne(e: Entry, which: Selector)
    ensures Tally([e], which) == Weight(e, which)
  {
    assert [e][1..] == [];
  }

  lemma {:induction false} TallyNewestFirst(alerts: seq<Entry>, which: Selector)
    ensures Tally(NewestFirst(alerts), which) == Tally(alerts, which)
  {
    if alerts != [] {
      TallyNewestFirst(alerts[1..], which);
      TallyConcat(NewestFirst(alerts[1..]), [alerts[0]], which);
      TallyOne(alerts[0], which);
    }
  }

  /** The tally depends only on which entries there are. */
  lemma {:induction false} TallyShuffled(a: seq<Entry>, b: seq<Entry>, which: Selector)
    requires multiset(a) == multiset(b)
    ensures |a| == |b| && Tally(a, which) == Tally(b, which)
    decreases |a|
  {
    assert |multiset(a)| == |a| && |multiset(b)| == |b|;
    if a != [] {
      assert a[0] in multiset(b);
      var i :| 0 <= i < |b| && b[i] == a[0];
      var before, after := b[..i], b[i + 1..];
      assert a == [a[0]] + a[1..] && b == before + [b[i]] + after;
      MultisetConcat([a[0]], a[1..]);
      MultisetConcat(before, [b[i]]);
      MultisetConcat(before + [b[i]], after);
      MultisetConcat(before, after);
      assert multiset(a[1..]) + multiset{a[0]} == multiset(a);
      assert multiset(before + after) + multiset{a[0]} == multiset(b);
      Cancel(multiset(a[1..]), multiset(before + after), multiset{a[0]});
      TallyShuffled(a[1..], before + after, which);
      TallyConcat(before, after, which);
      TallyConcat(before + [b[i]], after, which);
      TallyConcat(before, [b[i]], which);
      TallyOne(b[i], which);
    }
  }

  lemma {:induction false} DistinctOnce(alerts: seq<Entry>, e: Entry)
    requires DistinctIds(alerts)
    ensures multiset(alerts)[e] <= 1
  {
    if alerts != [] {
      var init, last := alerts[..|alerts| - 1], alerts[|alerts| - 1];
      assert alerts == init + [last];
      DistinctOnce(init, e);
      MultisetAppend(init, last);
      assert forall i :: 0 <= i < |init| ==> init[i] == alerts[i] && init[i].id != last.id;
    }
  }

  /** Some of the fresh alerts, in any order, are fresh alerts. */
  lemma {:induction false} SomeFreshAlertsAreFresh(log: seq<Entry>, newer: seq<Entry>, arrived: seq<Entry>,
                                                   missing: seq<Entry>)
    requires FreshFor(log, newer) && multiset(newer) == multiset(arrived) + multiset(missing)
    ensures FreshFor(log, arrived)
  {
    forall i | 0 <= i < |arrived| ensures arrived[i] in newer {
      assert arrived[i] in multiset(arrived);
      assert arrived[i] in multiset(newer);
    }
    forall i, j | 0 <= i < j < |arrived| ensures arrived[i].id != arrived[j].id {
      if arrived[i].id == arrived[j].id {
        var p :| 0 <= p < |newer| && newer[p] == arrived[i];
        var q :| 0 <= q < |newer| && newer[q] == arrived[j];
        assert p == q;
        TwiceCountsTwo(arrived, i, j);
        DistinctOnce(newer, arrived[i]);
      }
    }
  }

  function AddCounts(a: Counts, b: Counts): Counts {
    Counts(a.critical + b.critical, a.high + b.high, a.medium + b.medium, a.low + b.low)
  }

  lemma {:induction false} TallyOfArrivals(log: seq<Entry>, newer: seq<Entry>, arrived: seq<Entry>,
                                           missing: seq<Entry>, which: Selector)
    requires multiset(newer) == multiset(arrived) + multiset(missing)
    ensures |newer| == |arrived| + |missing|
    ensures Tally(NewestFirst(arrived) + log, which) + Tally(missing, which) ==
            Tally(NewestFirst(newer) + log, which)
  {
    hide Tally, NewestFirst;
    MultisetConcat(arrived, missing);
    TallyShuffled(newer, arrived + missing, which);
    TallyConcat(arrived, missing, which);
    TallyNewestFirst(arrived, which);
    TallyNewestFirst(newer, which);
    TallyConcat(NewestFirst(arrived), log, which);
    TallyConcat(NewestFirst(newer), log, which);
  }

  lemma {:induction false} RecountOfArrivals(log: seq<Entry>, newer: seq<Entry>, arrived: seq<Entry>,
                                             missing: seq<Entry>)
    requires multiset(newer) == multiset(arrived) + multiset(missing)
    ensures AddCounts(Recount(NewestFirst(arrived) + log), Recount(missing)) == Recount(NewestFirst(newer) + log)
  {
    hide Tally, NewestFirst;
    TallyOfArrivals(log, newer, arrived, missing, Only(Critical));
    TallyOfArrivals(log, newer, arrived, missing, Only(High));
    TallyOfArrivals(log, newer, arrived, missing, Only(Medium));
    TallyOfArrivals(log, newer, arrived, missing, Only(Low));
  }

  /** Of the fresh alerts `newer`, those in `arrived` reach the page, in any order, and those in `missing` do not.
      The window shows the order of arrival; each counter falls short of a recount by the missing alerts exactly. */
  lemma {:induction false} ShuffledArrivals(v: View, log: seq<Entry>, newer: seq<Entry>, arrived: seq<Entry>,
                                            missing: seq<Entry>)
    requires Tracks(v, log) && FreshFor(log, newer)
    requires multiset(newer) == multiset(arrived) + multiset(missing)
    ensures var w, full := AddAll(v, arrived), NewestFirst(newer) + log;
            && Tracks(w, NewestFirst(arrived) + log)
            && w.total + |missing| == |full|
            && w.active + Tally(missing, AnySeverity) == Tally(full, AnySeverity)
            && AddCounts(w.counts, Recount(missing)) == Recount(full)
  {
    hide FreshFor, FollowedAll, LogAddAll, AddAll, NewestFirst, Tally, Recount, AddCounts, DistinctIds, NoFingerprints;
    SomeFreshAlertsAreFresh(log, newer, arrived, missing);
    FreshAlertsAreFollowed(log, arrived);
    PageTracksLog(v, log, arrived);
    TallyOfArrivals(log, newer, arrived, missing, AnySeverity);
    RecountOfArrivals(log, newer, arrived, missing);
  }

  // ----- Health, unread count and toasts over any run of events -----

  datatype Event =
    | Received(alert: Entry, toastId: nat)   // a WebSocket message of type alert
    | Fetched(response: Response)
    | FetchFailed(toastId: nat)
    | Opened(alert: Entry)                   // marked as read
    | ReadAll
    | ToastGone(id: nat)

  function HandleMessage(v: View, alert: Entry, toastId: nat): View {
    var added := AddAlert(v, alert);
    if alert.severity.Critical? || alert.severity.High? then ShowToast(added, Toast(toastId, alert.severity)) else added
  }

  function Handle(v: View, e: Event): View {
    match e
    case Received(alert, toastId) => HandleMessage(v, alert, toastId)
    case Fetched(r) => FetchSucceeds(v, r)
    case FetchFailed(toastId) => FetchFails(v, toastId)
    case Opened(alert) => MarkAlertAsRead(v, alert)
    case ReadAll => MarkAllRead(v)
    case ToastGone(id) => RemoveToast(v, id)
  }

  function HandleAll(v: View, events: seq<Event>): View
    decreases |events|
  {
    if events == [] then v else HandleAll(Handle(v, events[0]), events[1..])
  }

  /** The page asks for at most a hundred alerts. */
  ghost predicate WithinLimit(events: seq<Event>) {
    forall i :: 0 <= i < |events| && events[i].Fetched? ==> |events[i].response.alerts| <= WINDOW
  }

  ghost predicate Bounded(v: View) {
    0 <= v.unread <= WINDOW && |v.toasts| <= MAX_TOASTS && |v.alerts| <= WINDOW
  }

  lemma {:induction false} StaysBounded(v: View, events: seq<Event>)
    requires Bounded(v) && WithinLimit(events)
    ensures Bounded(HandleAll(v, events))
    decreases |events|
  {
    if events != [] {
      assert forall i :: 0 <= i < |events| - 1 ==> events[1..][i] == events[i + 1];
      StaysBounded(Handle(v, events[0]), events[1..]);
    }
  }

  ghost predicate HealthOk(v: View) {
    v.health == HealthOf(v.counts)
  }

  /** The events on which the page computes its health anew. */
  predicate Recomputes(v: View, e: Event) {
    match e
    case Fetched(_) => true
    case Received(alert, _) =>
      var index := FindIndex(v.alerts, alert);
      if index < |v.alerts| then v.alerts[index].status != alert.status else alert.status == Firing
    case _ => false
  }

  ghost predicate SomeRecompute(v: View, events: seq<Event>)
    decreases |events|
  {
    events != [] && (Recomputes(v, events[0]) || SomeRecompute(Handle(v, events[0]), events[1..]))
  }

  lemma {:induction false} EventHealth(v: View, e: Event)
    requires !e.FetchFailed?
    ensures Recomputes(v, e) ==> HealthOk(Handle(v, e))
    ensures !Recomputes(v, e) ==> Handle(v, e).health == v.health && Handle(v, e).counts == v.counts
  {
  }

  /** Over events among which no fetch fails, the health shown ends up being the health of the counts if and only
      if it was so at the start or was computed anew on the way. */
  lemma {:induction false} HealthFollowsCountsIff(v: View, events: seq<Event>)
    requires forall i :: 0 <= i < |events| ==> !events[i].FetchFailed?
    ensures HealthOk(HandleAll(v, events)) <==> HealthOk(v) || SomeRecompute(v, events)
    decreases |events|
  {
    if events != [] {
      assert forall i :: 0 <= i < |events| - 1 ==> events[1..][i] == events[i + 1];
      EventHealth(v, events[0]);
      HealthFollowsCountsIff(Handle(v, events[0]), events[1..]);
    }
  }

  /** Once a fetch has succeeded and none has failed since, the health shown is the health of the counts, whatever
      happened before. */
  lemma {:induction false} HealthFollowsLastFetch(v: View, events: seq<Event>, k: nat)
    requires k < |events| && events[k].Fetched?
    requires forall i :: k < i < |events| ==> !events[i].FetchFailed?
    ensures HealthOk(HandleAll(v, events))
    decreases |events|
  {
    assert forall i :: 0 <= i < |events| - 1 ==> events[1..][i] == events[i + 1];
    if k == 0 {
      HealthFollowsCountsIff(Handle(v, events[0]), events[1..]);
    } else {
      HealthFollowsLastFetch(Handle(v, events[0]), events[1..], k - 1);
    }
  }

  /** After a failed fetch the page shows `degraded`; through the events up to the next failure that is the health
      of the counts only if they mean degraded, or if one of the events computes it anew. */
  lemma {:induction false} FailedFetchHealthIff(v: View, toastId: nat, events: seq<Event>)
    requires forall i :: 0 <= i < |events| ==> !events[i].FetchFailed?
    ensures HealthOk(HandleAll(FetchFails(v, toastId), events)) <==>
            HealthOf(v.counts) == Degraded || SomeRecompute(FetchFails(v, toastId), events)
  {
    HealthFollowsCountsIff(FetchFails(v, toastId), events);
  }

  /** The cap of 50 on unread alerts is kept by every event except a fetch that finds more than 50. */
  lemma {:induction false} UnreadCapIff(v: View, e: Event)
    requires 0 <= v.unread <= MAX_UNREAD
    ensures Handle(v, e).unread <= MAX_UNREAD <==>
            !(e.Fetched? && CountUnread(e.response.alerts, v.read) > MAX_UNREAD)
  {
  }

  /** Everything firing in the window is read after `markAllRead`, so a fetch of the same alerts counts none. */
  lemma {:induction false} NothingUnreadAfterReadAll(v: View, n: nat)
    requires n <= |v.alerts|
    ensures CountUnread(v.alerts[..n], MarkAllRead(v).read) == 0
  {
    if n > 0 {
      assert v.alerts[..n][..n - 1] == v.alerts[..n - 1];
      NothingUnreadAfterReadAll(v, n - 1);
      if v.alerts[n - 1].status == Firing {
        assert v.alerts[n - 1].id in FiringIds(v.alerts);
      }
    }
  }

  /** A fetch and `markAllRead` leave the unread count equal to a recount, whatever it was before. */
  lemma {:induction false} ResetsMakeUnreadExact(v: View, r: Response)
    ensures UnreadExact(FetchSucceeds(v, r)) && UnreadExact(MarkAllRead(v))
  {
    NothingUnreadAfterReadAll(v, |v.alerts|);
    assert v.alerts[..|v.alerts|] == v.alerts;
  }

  // ----- Inputs on which the page goes wrong -----

  /** The firing alerts numbered 0 to n - 1. */
  function FiringAlerts(n: nat): (alerts: seq<Entry>)
    ensures |alerts| == n
    ensures forall i :: 0 <= i < n ==> alerts[i] == Entry(i, Firing, Medium, "")
  {
    if n == 0 then [] else FiringAlerts(n - 1) + [Entry(n - 1, Firing, Medium, "")]
  }

  /** Any page that receives 101 different alerts, and then the first of them again, counts 102 where there are 101. */
  lemma {:induction false} FirstOf101ComesBack(alerts: seq<Entry>)
    requires |alerts| == 101 && FreshFor([], alerts)
    ensures var v, log := AddAll(NewView(), alerts), NewestFirst(alerts);
            Tracks(v, log) && AddAlert(v, alerts[0]).total == 102 && |LogAdd(log, alerts[0])| == 101
  {
    var log := NewestFirst(alerts);
    assert Tracks(NewView(), []);
    FreshAlertsAreFollowed([], alerts);
    PageTracksLog(NewView(), [], alerts);
    assert log + [] == log;
    NewestFirstAt(alerts, 100);
    hide AddAll, NewestFirst, AddAlert, Tracks, FreshFor, LogAddAll, FollowedAll;
    EvictedAlertIsMiscounted(AddAll(NewView(), alerts), log, 100, alerts[0]);
    assert |LogAdd(log, alerts[0])| == 101;
  }

  /** There are 101 such alerts. */
  lemma {:induction false} EvictionHappens() returns (alerts: seq<Entry>)
    ensures |alerts| == 101 && FreshFor([], alerts)
    ensures AddAlert(AddAll(NewView(), alerts), alerts[0]).total == |LogAdd(NewestFirst(alerts), alerts[0])| + 1
  {
    hide FiringAlerts, AddAll, AddAlert, NewestFirst, LogAdd;
    alerts := FiringAlerts(WINDOW + 1);
    FirstOf101ComesBack(alerts);
  }

  /** One unread alert and one resolved one; opening the resolved one makes the page show none unread. */
  lemma {:induction false} OpeningDrifts()
    ensures var firing, resolved := Entry(0, Firing, Medium, ""), Entry(1, Resolved, Medium, "");
            var v := AddAlert(AddAlert(NewView(), firing), resolved);
            && UnreadExact(v) && v.unread == 1
            && MarkAlertAsRead(v, resolved).unread == 0 && !UnreadExact(MarkAlertAsRead(v, resolved))
  {
    var firing, resolved := Entry(0, Firing, Medium, ""), Entry(1, Resolved, Medium, "");
    var one := AddAlert(NewView(), firing);
    NewAlertKeepsUnreadExactIff(NewView(), firing);
    NewAlertKeepsUnreadExactIff(one, resolved);
    var v := AddAlert(one, resolved);
    assert v.alerts == [resolved, firing];
    OpeningKeepsUnreadExactIff(v, resolved);
  }

  /** An unread alert is resolved in place, and the page goes on counting it. */
  lemma {:induction false} UpdateDrifts()
    ensures var v := AddAlert(NewView(), Entry(0, Firing, Medium, ""));
            var w := AddAlert(v, Entry(0, Resolved, Medium, ""));
            UnreadExact(v) && w.unread == 1 && !UnreadExact(w)
  {
    var firing, resolved := Entry(0, Firing, Medium, ""), Entry(0, Resolved, Medium, "");
    NewAlertKeepsUnreadExactIff(NewView(), firing);
    UpdateKeepsUnreadExactIff(AddAlert(NewView(), firing), resolved);
  }

  lemma {:induction false} AllUnread(alerts: seq<Entry>, read: set<nat>)
    requires forall i :: 0 <= i < |alerts| ==> Unread(alerts[i], read)
    ensures CountUnread(alerts, read) == |alerts|
  {
    if alerts != [] {
      var init := alerts[..|alerts| - 1];
      assert forall i :: 0 <= i < |init| ==> init[i] == alerts[i];
      AllUnread(init, read);
    }
  }

  /** A fetch can find 50 unread alerts; the next one that arrives is not counted any more. */
  lemma {:induction false} NewAlertDrifts() returns (r: Response, alert: Entry)
    ensures var v := FetchSucceeds(NewView(), r);
            var w := AddAlert(v, alert);
            |r.alerts| <= WINDOW && UnreadExact(v) && v.unread == w.unread == 50 && !UnreadExact(w)
  {
    hide FiringAlerts, CountUnread, FindIndex;
    var alerts := FiringAlerts(MAX_UNREAD);
    r, alert := Response(alerts, 50, 50, Counts(0, 0, 50, 0)), Entry(50, Firing, Medium, "");
    AllUnread(alerts, {});
    FiftyFirstIsUncounted(FetchSucceeds(NewView(), r), alert);
  }

  lemma {:induction false} FiftyFirstIsUncounted(v: View, alert: Entry)
    requires UnreadExact(v) && v.unread == MAX_UNREAD && |v.alerts| < WINDOW && Unread(alert, v.read)
    requires FindIndex(v.alerts, alert) == |v.alerts|
    ensures AddAlert(v, alert).unread == MAX_UNREAD && !UnreadExact(AddAlert(v, alert))
  {
    NewAlertKeepsUnreadExactIff(v, alert);
    hide CountUnread, FindIndex;
  }

  lemma {:induction false} WithoutAbsent(toasts: seq<Toast>, id: nat)
    requires forall i :: 0 <= i < |toasts| ==> toasts[i].id != id
    ensures Without(toasts, id) == toasts
  {
    if toasts != [] {
      WithoutAbsent(toasts[..|toasts| - 1], id);
    }
  }

  /** A toast that disappears leaves what was there before it, less the one it pushed out. */
  lemma {:induction false} ToastComesAndGoes(v: View, toast: Toast)
    requires forall i :: 0 <= i < |v.toasts| ==> v.toasts[i].id != toast.id
    ensures RemoveToast(ShowToast(v, toast), toast.id) ==
            v.(toasts := if |v.toasts| >= MAX_TOASTS then v.toasts[1..] else v.toasts)
  {
    var kept := if |v.toasts| >= MAX_TOASTS then v.toasts[1..] else v.toasts;
    assert (kept + [toast])[..|kept|] == kept;
    WithoutAbsent(kept, toast.id);
  }

  // ----- The page object -----

  class Page {
    var alerts: seq<Entry>
    var critical: int
    var high: int
    var medium: int
    var low: int
    var totalAlerts: int
    var activeAlertsCount: int
    var systemHealthStatus: Health
    var unreadCount: int
    var readAlertIds: set<nat>
    var toasts: seq<Toast>

    function Contents(): View
      reads this
    {
      View(alerts, Counts(critical, high, medium, low), totalAlerts, activeAlertsCount, systemHealthStatus,
           unreadCount, readAlertIds, toasts)
    }

    constructor ()
      ensures Contents() == NewView()
      ensures Tracks(Contents(), [])
    {
      alerts, toasts := [], [];
      critical, high, medium, low := 0, 0, 0, 0;
      totalAlerts, activeAlertsCount, unreadCount := 0, 0, 0;
      systemHealthStatus := Healthy;
      readAlertIds := {};
    }

    method UpdateHealth()
      modifies this`systemHealthStatus
      ensures Contents() == UpdateSystemHealth(old(Contents()))
    {
      if critical > 0 {
        systemHealthStatus := CriticalHealth;
      } else if high > 3 {
        systemHealthStatus := Degraded;
      } else if high > 0 {
        systemHealthStatus := Warning;
      } else {
        systemHealthStatus := Healthy;
      }
    }

    method IncrementSeverity(severity: Severity)
      modifies this`critical, this`high, this`medium, this`low
      ensures Contents() == old(Contents()).(counts := Increment(old(Contents()).counts, severity))
    {
      match severity {
        case Critical => critical := critical + 1;
        case High => high := high + 1;
        case Medium => medium := medium + 1;
        case Low => low := low + 1;
        case OtherSeverity(_) =>
      }
    }

    method DecrementSeverity(severity: Severity)
      modifies this`critical, this`high, this`medium, this`low
      ensures Contents() == old(Contents()).(counts := Decrement(old(Contents()).counts, severity))
    {
      match severity {
        case Critical => critical := Max0(critical - 1);
        case High => high := Max0(high - 1);
        case Medium => medium := Max0(medium - 1);
        case Low => low := Max0(low - 1);
        case OtherSeverity(_) =>
      }
    }

    /** For whatever log the page tracked before, it tracks the log with the alert added if the page can follow
        the update, and only then. */
    method Add(alert: Entry)
      modifies this
      ensures Contents() == AddAlert(old(Contents()), alert)
      ensures forall log :: Tracks(old(Contents()), log) && alert.fingerprint == "" ==>
                (Tracks(Contents(), LogAdd(log, alert)) <==> Followed(log, alert))
    {
      hide Tracks, Followed, LogAdd;
      var existingIndex := FindIndex(alerts, alert);
      if existingIndex < |alerts| {
        var oldAlert := alerts[existingIndex];
        alerts := alerts[existingIndex := alert];
        if oldAlert.status != alert.status {
          if oldAlert.status == Firing && alert.status != Firing {
            activeAlertsCount := Max0(activeAlertsCount - 1);
            DecrementSeverity(oldAlert.severity);
          } else if oldAlert.status != Firing && alert.status == Firing {
            activeAlertsCount := activeAlertsCount + 1;
            IncrementSeverity(alert.severity);
          }
          UpdateHealth();
        }
      } else {
        alerts := [alert] + alerts;
        totalAlerts := totalAlerts + 1;
        if alert.status == Firing {
          activeAlertsCount := activeAlertsCount + 1;
          IncrementSeverity(alert.severity);
          UpdateHealth();
        }
        if alert.status == Firing && alert.id !in readAlertIds {
          if unreadCount < MAX_UNREAD {
            unreadCount := unreadCount + 1;
          }
        }
        if |alerts| > WINDOW {
          alerts := alerts[..WINDOW];
        }
      }
      forall log | Tracks(old(Contents()), log) && alert.fingerprint == ""
        ensures Tracks(Contents(), LogAdd(log, alert)) <==> Followed(log, alert)
      {
        AddAlertTracksIff(old(Contents()), log, alert);
      }
    }

    method Show(toast: Toast)
      modifies this`toasts
      ensures Contents() == ShowToast(old(Contents()), toast)
    {
      if |toasts| >= MAX_TOASTS {
        toasts := toasts[1..];
      }
      toasts := toasts + [toast];
    }

    method Remove(id: nat)
      modifies this`toasts
      ensures Contents() == RemoveToast(old(Contents()), id)
    {
      toasts := Without(toasts, id);
    }

    method HandleWebSocketMessage(alert: Entry, toastId: nat)
      modifies this
      ensures Contents() == HandleMessage(old(Contents()), alert, toastId)
    {
      Add(alert);
      if alert.severity.Critical? || alert.severity.High? {
        Show(Toast(toastId, alert.severity));
      }
    }

    method FetchAlerts(succeeded: bool, r: Response, toastId: nat)
      modifies this
      ensures Contents() == if succeeded then FetchSucceeds(old(Contents()), r) else FetchFails(old(Contents()), toastId)
    {
      if succeeded {
        alerts := r.alerts;
        totalAlerts := r.total;
        activeAlertsCount := r.active;
        critical, high, medium, low := r.counts.critical, r.counts.high, r.counts.medium, r.counts.low;
        unreadCount := CountUnread(alerts, readAlertIds);
        UpdateHealth();
      } else {
        Show(Toast(toastId, High));
        systemHealthStatus := Degraded;
      }
    }

    method MarkAsRead(alert: Entry)
      modifies this`readAlertIds, this`unreadCount
      ensures Contents() == MarkAlertAsRead(old(Contents()), alert)
    {
      if alert.id !in readAlertIds {
        readAlertIds := readAlertIds + {alert.id};
        if unreadCount > 0 {
          unreadCount := unreadCount - 1;
        }
      }
    }

    method MarkAll()
      modifies this`readAlertIds, this`unreadCount
      ensures Contents() == MarkAllRead(old(Contents()))
    {
      readAlertIds := readAlertIds + FiringIds(alerts);
      unreadCount := 0;
    }
  }
}

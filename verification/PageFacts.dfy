/** What the page shows, in its own terms: when it shows which health, which alerts raise a toast, which alert an
    arriving one replaces, and that what was read stays read. */
module PageFacts {
  import opened Models
  import opened Dashboard

  // ----- Health -----

  lemma {:induction false} HealthByCounts(v: View)
    requires HealthOk(v)
    ensures v.health == CriticalHealth <==> v.counts.critical > 0
    ensures v.health == Degraded <==> v.counts.critical <= 0 && v.counts.high > 3
    ensures v.health == Warning <==> v.counts.critical <= 0 && 0 < v.counts.high <= 3
    ensures v.health == Healthy <==> v.counts.critical <= 0 && v.counts.high <= 0
  {
  }

  /** Through any events the last fetch of which succeeded, the page ends up critical if the critical count is positive,
      degraded with more than three high alerts, warning with at least one, and healthy with neither. */
  lemma {:induction false} HealthAfterLastFetch(v: View, events: seq<Event>, k: nat)
    requires k < |events| && events[k].Fetched?
    requires forall i :: k < i < |events| ==> !events[i].FetchFailed?
    ensures var w := HandleAll(v, events);
            && (w.health == CriticalHealth <==> w.counts.critical > 0)
            && (w.health == Degraded <==> w.counts.critical <= 0 && w.counts.high > 3)
            && (w.health == Warning <==> w.counts.critical <= 0 && 0 < w.counts.high <= 3)
            && (w.health == Healthy <==> w.counts.critical <= 0 && w.counts.high <= 0)
  {
    HealthFollowsLastFetch(v, events, k);
    hide HandleAll;
    HealthByCounts(HandleAll(v, events));
  }

  lemma {:induction false} PositiveTallyHasFiring(log: seq<Entry>, severity: Severity)
    ensures Tally(log, Only(severity)) > 0 <==>
            exists i :: 0 <= i < |log| && log[i].status == Firing && log[i].severity == severity
  {
    if log != [] {
      PositiveTallyHasFiring(log[1..], severity);
      assert forall i :: 0 < i < |log| ==> log[i] == log[1..][i - 1];
      if i :| 0 <= i < |log[1..]| && log[1..][i].status == Firing && log[1..][i].severity == severity {
        assert log[i + 1].status == Firing && log[i + 1].severity == severity;
      }
    }
  }

  /** A page that tracks its log and whose health is up to date shows critical if and only if some alert of the log, shown
      in the window or not, is critical and firing. */
  lemma {:induction false} CriticalShownIff(v: View, log: seq<Entry>)
    requires Tracks(v, log) && HealthOk(v)
    ensures v.health == CriticalHealth <==>
            exists i :: 0 <= i < |log| && log[i].status == Firing && log[i].severity == Critical
    ensures v.health == Healthy <==>
            forall i :: 0 <= i < |log| && log[i].status == Firing ==>
              log[i].severity != Critical && log[i].severity != High
  {
    HealthByCounts(v);
    PositiveTallyHasFiring(log, Critical);
    PositiveTallyHasFiring(log, High);
    hide Tally, HealthOk;
  }

  // ----- Counters -----

  ghost predicate NonNegative(v: View) {
    && v.total >= 0 && v.active >= 0 && v.unread >= 0
    && v.counts.critical >= 0 && v.counts.high >= 0 && v.counts.medium >= 0 && v.counts.low >= 0
  }

  /** No counter ever falls below zero, even on a page that no longer shows the truth, as long as no fetch brings back a
      negative count. */
  lemma {:induction false} CountersStayNonNegative(v: View, events: seq<Event>)
    requires NonNegative(v)
    requires forall i :: 0 <= i < |events| && events[i].Fetched? ==>
               var counts := events[i].response.counts;
               counts.critical >= 0 && counts.high >= 0 && counts.medium >= 0 && counts.low >= 0
    ensures NonNegative(HandleAll(v, events))
    decreases |events|
  {
    if events != [] {
      assert forall i :: 0 <= i < |events| - 1 ==> events[1..][i] == events[i + 1];
      assert NonNegative(Handle(v, events[0]));
      hide Handle;
      CountersStayNonNegative(Handle(v, events[0]), events[1..]);
    }
  }

  // ----- Toasts -----

  /** An arriving alert shows a toast if and only if it is critical or high: it joins the others, and if there were three
      already the oldest goes. */
  lemma {:induction false} ToastShownIff(v: View, alert: Entry, toastId: nat)
    ensures var w := Handle(v, Received(alert, toastId));
            var toast := Toast(toastId, alert.severity);
            if alert.severity == Critical || alert.severity == High
            then w.toasts == (if |v.toasts| >= 3 then v.toasts[1..] + [toast] else v.toasts + [toast])
            else w.toasts == v.toasts
  {
    var added := AddAlert(v, alert);
    assert added.toasts == v.toasts;
  }

  /** A failed fetch shows one as well, a toast goes when its time is up, and nothing else changes the toasts. */
  lemma {:induction false} OtherToasts(v: View, e: Event)
    requires !e.Received?
    ensures var w := Handle(v, e);
            match e
            case FetchFailed(toastId) =>
              w.toasts == (if |v.toasts| >= 3 then v.toasts[1..] else v.toasts) + [Toast(toastId, High)]
              && w == v.(toasts := w.toasts, health := Degraded)
            case ToastGone(id) =>
              && (forall i :: 0 <= i < |w.toasts| ==> w.toasts[i] in v.toasts && w.toasts[i].id != id)
              && (forall i :: 0 <= i < |v.toasts| && v.toasts[i].id != id ==> v.toasts[i] in w.toasts)
              && w == v.(toasts := w.toasts)
            case _ => w.toasts == v.toasts
  {
    if e.ToastGone? {
      WithoutKeepsOthers(v.toasts, e.id);
    }
  }

  lemma {:induction false} WithoutKeepsOthers(toasts: seq<Toast>, id: nat)
    ensures forall toast :: toast in Without(toasts, id) <==> toast in toasts && toast.id != id
  {
    if toasts != [] {
      var init, last := toasts[..|toasts| - 1], toasts[|toasts| - 1];
      assert toasts == init + [last];
      WithoutKeepsOthers(init, id);
    }
  }

  // ----- Which alert is replaced -----

  /** The alert that an arriving one replaces: the first in the window with its identifier, or with its fingerprint if
      that is not empty. */
  lemma {:induction false} FirstSameAlertIsReplaced(v: View, alert: Entry, index: nat)
    requires index <= |v.alerts|
    requires forall i :: 0 <= i < index ==>
               v.alerts[i].id != alert.id && (v.alerts[i].fingerprint == "" || v.alerts[i].fingerprint != alert.fingerprint)
    requires index < |v.alerts| ==>
               v.alerts[index].id == alert.id
               || (v.alerts[index].fingerprint != "" && v.alerts[index].fingerprint == alert.fingerprint)
    ensures AddAlert(v, alert).alerts ==
            if index < |v.alerts| then v.alerts[index := alert]
            else if |v.alerts| < 100 then [alert] + v.alerts
            else ([alert] + v.alerts)[..100]
    ensures AddAlert(v, alert).total == if index < |v.alerts| then v.total else v.total + 1
  {
    var found := FindIndex(v.alerts, alert);
    assert forall i :: 0 <= i < index ==> !SameAlert(v.alerts[i], alert);
    assert index < |v.alerts| ==> SameAlert(v.alerts[index], alert);
    hide FindIndex, SameAlert;
    assert found == index;
  }

  // ----- Read alerts -----

  lemma {:induction false} EventKeepsRead(v: View, e: Event)
    ensures v.read <= Handle(v, e).read
  {
  }

  /** Whatever happens after an alert was opened, it is never counted as unread again. */
  lemma {:induction false} OpenedStaysRead(v: View, events: seq<Event>, id: nat)
    requires id in v.read
    ensures id in HandleAll(v, events).read
    decreases |events|
  {
    if events != [] {
      EventKeepsRead(v, events[0]);
      OpenedStaysRead(Handle(v, events[0]), events[1..], id);
    }
  }

  lemma {:induction false} OpenedIsNeverUnread(v: View, alert: Entry, events: seq<Event>, shown: Entry)
    requires shown.id == alert.id
    ensures !Unread(shown, HandleAll(MarkAlertAsRead(v, alert), events).read)
  {
    OpenedStaysRead(MarkAlertAsRead(v, alert), events, alert.id);
  }

  /** The page has read only what was opened, or listed as firing when all was marked as read. */
  lemma {:induction false} OnlyReadByReading(v: View, e: Event, id: nat)
    ensures id in Handle(v, e).read <==>
            || id in v.read
            || (e.Opened? && e.alert.id == id)
            || (e.ReadAll? && exists i :: 0 <= i < |v.alerts| && v.alerts[i].status == Firing && v.alerts[i].id == id)
  {
  }
}

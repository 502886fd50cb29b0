/** The alert queries, asked of the running application. */
module Queries {
  import opened Models
  import opened Application
  import opened Repository
  import opened Dashboard
  import Shutdown

  lemma {:induction false} StoredOnlyGrows(s: App, steps: seq<Application.Step>, t: App)
    requires Application.Run(s, steps, t)
    ensures s.stored <= t.stored
    decreases |steps|
  {
    if steps != [] {
      StoredOnlyGrows(Application.Apply(s, steps[0]), steps[1..], t);
    }
  }

  lemma {:induction false} AllFiring(log: seq<Alert>)
    requires forall i :: 0 <= i < |log| ==> CollectorAlert(log[i])
    ensures CountByStatus(log, Firing) == |log| && CountBySeverity(log, Low) == 0
  {
    if log != [] {
      var init := log[..|log| - 1];
      assert forall i :: 0 <= i < |init| ==> init[i] == log[i];
      AllFiring(init);
    }
  }

  /** In every reachable state every stored alert is firing, and critical, high and medium partition the store. */
  lemma {:induction false} SeveritiesPartitionTheStore(s: App)
    requires Shutdown.Reachable(s)
    ensures CountByStatus(s.stored, Firing) == |s.stored|
    ensures CountBySeverity(s.stored, Critical) + CountBySeverity(s.stored, High)
            + CountBySeverity(s.stored, Medium) == |s.stored|
  {
    Shutdown.StoredAlertsAreCollectorAlerts(s);
    AllFiring(s.stored);
    SeveritiesPartitionIff(s.stored);
    hide CountBySeverity, CountByStatus;
  }

  /** While the application runs on between the four reads, their total stays between the number of firing
      alerts at the first read and at the last. */
  lemma {:induction false} SeverityCountsDuringARun(s0: App, steps1: seq<Application.Step>, s1: App,
                                                    steps2: seq<Application.Step>,
                                 s2: App, steps3: seq<Application.Step>, s3: App)
    requires Shutdown.Reachable(s0)
    requires Application.Run(s0, steps1, s1) && Application.Run(s1, steps2, s2) && Application.Run(s2, steps3, s3)
    ensures |s0.stored| <= Total(FourReads(s0.stored, s1.stored, s2.stored, s3.stored)) <= |s3.stored|
  {
    StoredOnlyGrows(s0, steps1, s1);
    StoredOnlyGrows(s1, steps2, s2);
    StoredOnlyGrows(s2, steps3, s3);
    Shutdown.ReachableRun(s0, steps1, s1);
    Shutdown.ReachableRun(s1, steps2, s2);
    Shutdown.ReachableRun(s2, steps3, s3);
    hide Shutdown.Reachable, Application.Run;
    Shutdown.StoredAlertsAreCollectorAlerts(s3);
    SeveritiesPartitionTheStore(s0);
    SeveritiesPartitionTheStore(s3);
    ConcurrentTotalIsBetween(s0.stored, s1.stored, s2.stored, s3.stored);
  }

  // ----- The page over the application -----

  function Entries(alerts: seq<Alert>): (entries: seq<Entry>)
    ensures |entries| == |alerts|
    ensures forall i :: 0 <= i < |alerts| ==> entries[i] == FromModel(alerts[i])
  {
    if alerts == [] then [] else Entries(alerts[..|alerts| - 1]) + [FromModel(alerts[|alerts| - 1])]
  }

  /** No two stored alerts share an identifier. */
  lemma {:induction false} StoredIdsAreDistinct(s: App)
    requires Shutdown.Reachable(s)
    ensures DistinctAlerts(s.stored)
  {
    forall i, j | 0 <= i < j < |s.stored| ensures s.stored[i].id != s.stored[j].id {
      Shutdown.StoredAreIssuedOnce(s, i, j);
    }
  }

  ghost predicate DistinctAlerts(store: seq<Alert>) {
    forall i, j :: 0 <= i < j < |store| ==> store[i].id != store[j].id
  }

  lemma {:induction false} EntriesAreDistinct(store: seq<Alert>, n: nat)
    requires n <= |store| && DistinctAlerts(store)
    ensures DistinctIds(Entries(store)[n..]) && NoFingerprints(Entries(store)[n..])
  {
    var entries := Entries(store);
    forall i | 0 <= i < |entries| - n ensures entries[n..][i] == FromModel(store[n + i]) {
    }
  }

  lemma {:induction false} NewerIsNotOlder(store: seq<Alert>, n: nat, i: nat, j: nat)
    requires n + i < |store| && j < n && DistinctAlerts(store)
    ensures Entries(store)[n..][i].id != NewestFirst(Entries(store)[..n])[j].id
  {
    NewestFirstAt(Entries(store)[..n], j);
    hide NewestFirst;
    assert Entries(store)[n..][i] == FromModel(store[n + i]);
    assert Entries(store)[..n][n - 1 - j] == FromModel(store[n - 1 - j]);
  }

  lemma {:induction false} NewAlertsAreFresh(store: seq<Alert>, n: nat)
    requires n <= |store| && DistinctAlerts(store)
    ensures FreshFor(NewestFirst(Entries(store)[..n]), Entries(store)[n..])
  {
    var older, newer := NewestFirst(Entries(store)[..n]), Entries(store)[n..];
    EntriesAreDistinct(store, n);
    hide NewestFirst, Entries, DistinctIds, NoFingerprints;
    forall i, j | 0 <= i < |newer| && 0 <= j < |older| ensures newer[i].id != older[j].id {
      NewerIsNotOlder(store, n, i, j);
    }
  }

  lemma {:induction false} EntriesOfPrefix(store: seq<Alert>, n: nat)
    requires n <= |store|
    ensures Entries(store)[..n] == Entries(store[..n])
  {
  }

  // ----- Counting the store and counting its entries -----

  /** The store's counts are the tallies of the page's log of it. */
  lemma {:induction false} StoreCountsAreTallies(store: seq<Alert>, severity: Severity)
    ensures CountByStatus(store, Firing) == Tally(Entries(store), AnySeverity)
    ensures CountBySeverity(store, severity) == Tally(Entries(store), Only(severity))
  {
    if store != [] {
      var init, last := store[..|store| - 1], store[|store| - 1];
      StoreCountsAreTallies(init, severity);
      TallyConcat(Entries(init), [FromModel(last)], AnySeverity);
      TallyConcat(Entries(init), [FromModel(last)], Only(severity));
      TallyOne(FromModel(last), AnySeverity);
      TallyOne(FromModel(last), Only(severity));
      hide Tally;
    }
  }

  function StoreCounts(store: seq<Alert>): Counts {
    Counts(CountBySeverity(store, Critical), CountBySeverity(store, High),
           CountBySeverity(store, Medium), CountBySeverity(store, Low))
  }

  lemma {:induction false} StoreCountsAreRecount(store: seq<Alert>)
    ensures StoreCounts(store) == Recount(Entries(store))
    ensures CountByStatus(store, Firing) == Tally(Entries(store), AnySeverity)
  {
    hide Entries, Tally, CountBySeverity, CountByStatus;
    StoreCountsAreTallies(store, Critical);
    StoreCountsAreTallies(store, High);
    StoreCountsAreTallies(store, Medium);
    StoreCountsAreTallies(store, Low);
  }

  lemma {:induction false} StoreCountsAreNewestFirst(store: seq<Alert>)
    ensures StoreCounts(store) == Recount(NewestFirst(Entries(store)))
    ensures CountByStatus(store, Firing) == Tally(NewestFirst(Entries(store)), AnySeverity)
  {
    StoreCountsAreRecount(store);
    hide Entries, Tally, NewestFirst, StoreCounts, CountByStatus;
    TallyNewestFirst(Entries(store), AnySeverity);
    TallyNewestFirst(Entries(store), Only(Critical));
    TallyNewestFirst(Entries(store), Only(High));
    TallyNewestFirst(Entries(store), Only(Medium));
    TallyNewestFirst(Entries(store), Only(Low));
  }

  // ----- A fetch -----

  /** The answers of the alert service for this store, with the hundred newest alerts in the given order. */
  function Answers(store: seq<Alert>, recent: seq<Entry>): Response {
    Response(recent, |store|, CountByStatus(store, Firing), StoreCounts(store))
  }

  /** A fetch that gets the hundred newest alerts newest first makes the page show the truth about the store,
      whatever it showed before. */
  lemma {:induction false} FetchShowsTheStore(store: seq<Alert>, v: View)
    requires DistinctAlerts(store)
    ensures var log := NewestFirst(Entries(store));
            Tracks(FetchSucceeds(v, Answers(store, Newest(log))), log)
  {
    var log := NewestFirst(Entries(store));
    StoreCountsAreNewestFirst(store);
    NewAlertsAreFresh(store, 0);
    LogOfStoreIsDistinct(store);
    hide Entries, Tally, Recount, NewestFirst, StoreCounts, CountByStatus, DistinctIds, NoFingerprints, CountUnread;
  }

  lemma {:induction false} LogOfStoreIsDistinct(store: seq<Alert>)
    requires DistinctAlerts(store)
    ensures DistinctIds(NewestFirst(Entries(store))) && NoFingerprints(NewestFirst(Entries(store)))
  {
    var entries := Entries(store);
    var log := NewestFirst(entries);
    hide NewestFirst;
    forall i | 0 <= i < |log| ensures log[i] == FromModel(store[|store| - 1 - i]) {
      NewestFirstAt(entries, i);
    }
    hide Entries;
  }

  /** The in-memory store hands out its newest alerts oldest first. Fetched in that order they make the page show
      the truth only as long as there is no more than one. */
  lemma {:induction false} FetchInStoreOrderTracksIff(store: seq<Alert>, v: View)
    requires DistinctAlerts(store)
    ensures var entries := Entries(store);
            var size := if WINDOW < |store| then WINDOW else |store|;
            Tracks(FetchSucceeds(v, Answers(store, entries[|store| - size..])), NewestFirst(entries))
            <==> |store| <= 1
  {
    var entries := Entries(store);
    var size := if WINDOW < |store| then WINDOW else |store|;
    var recent, log := entries[|store| - size..], NewestFirst(entries);
    FetchShowsTheStore(store, v);
    hide Tally, Recount, NewestFirst, StoreCounts, CountByStatus, DistinctIds, NoFingerprints, CountUnread;
    if |store| >= 2 {
      NewestFirstAt(entries, 0);
      assert Newest(log)[0] == FromModel(store[|store| - 1]);
      assert recent[0] == FromModel(store[|store| - size]);
    } else if |store| == 1 {
      NewestFirstAt(entries, 0);
      assert recent == Newest(log);
    } else {
      assert recent == Newest(log);
    }
  }

  // ----- The page follows the store -----

  /** The page showed the truth about an earlier store. Of the alerts created since, `arrived` reached it, in
      whatever order, and `missing` were dropped on the way. Then its window is the newest hundred in the order of
      arrival, and each counter falls short of the store's by the missing alerts and by nothing else. */
  lemma {:induction false} PageReceives(store: seq<Alert>, grown: seq<Alert>, v: View, arrived: seq<Entry>,
                                        missing: seq<Entry>)
    requires store <= grown && DistinctAlerts(grown) && Tracks(v, NewestFirst(Entries(store)))
    requires multiset(Entries(grown)[|store|..]) == multiset(arrived) + multiset(missing)
    ensures var w := AddAll(v, arrived);
            && Tracks(w, NewestFirst(arrived) + NewestFirst(Entries(store)))
            && w.total + |missing| == |grown|
            && w.active + Tally(missing, AnySeverity) == CountByStatus(grown, Firing)
            && AddCounts(w.counts, Recount(missing)) == StoreCounts(grown)
  {
    hide *;
    var n := |store|;
    assert grown[..n] == store;
    EntriesOfPrefix(grown, n);
    NewAlertsAreFresh(grown, n);
    var older, newer := Entries(grown)[..n], Entries(grown)[n..];
    assert older + newer == Entries(grown);
    ShuffledArrivals(v, NewestFirst(older), newer, arrived, missing);
    NewestFirstConcat(older, newer);
    StoreCountsAreNewestFirst(grown);
  }

  /** The entries of what was stored since. */
  ghost function EntriesSince(store: seq<Alert>, grown: seq<Alert>): seq<Entry> {
    if |store| <= |grown| then Entries(grown)[|store|..] else []
  }

  lemma {:induction false} SinceIsSlice(store: seq<Alert>, grown: seq<Alert>)
    requires |store| <= |grown|
    ensures EntriesSince(store, grown) == Entries(grown)[|store|..]
  {
  }

  /** A page that fetched the store and then received, in whatever order, those alerts stored since that were not
      dropped on the way: however long the application ran in between, its counters are short of the store by the
      alerts that were dropped, and exact if none was. */
  lemma {:induction false} PageFollowsTheStore(s: App, steps: seq<Application.Step>, t: App, before: View,
                                               arrived: seq<Entry>, missing: seq<Entry>)
    requires Shutdown.Reachable(s) && Application.Run(s, steps, t)
    requires multiset(EntriesSince(s.stored, t.stored)) == multiset(arrived) + multiset(missing)
    ensures var old' := NewestFirst(Entries(s.stored));
            var v := FetchSucceeds(before, Answers(s.stored, Newest(old')));
            var w := AddAll(v, arrived);
            && Tracks(w, NewestFirst(arrived) + old')
            && w.total + |missing| == |t.stored|
            && w.active + Tally(missing, AnySeverity) == CountByStatus(t.stored, Firing)
            && AddCounts(w.counts, Recount(missing)) == StoreCounts(t.stored)
  {
    hide *;
    StoredOnlyGrows(s, steps, t);
    Shutdown.ReachableRun(s, steps, t);
    StoredIdsAreDistinct(s);
    StoredIdsAreDistinct(t);
    FetchShowsTheStore(s.stored, before);
    var v := FetchSucceeds(before, Answers(s.stored, Newest(NewestFirst(Entries(s.stored)))));
    assert EntriesSince(s.stored, t.stored) == Entries(t.stored)[|s.stored|..] by {
      SinceIsSlice(s.stored, t.stored);
    }
    PageReceives(s.stored, t.stored, v, arrived, missing);
  }

  /** Received in the order of the store and without loss, the page shows the truth about the store as it is now,
      its window included. */
  lemma {:induction false} PageFollowsInOrder(s: App, steps: seq<Application.Step>, t: App, before: View)
    requires Shutdown.Reachable(s) && Application.Run(s, steps, t)
    ensures var v := FetchSucceeds(before, Answers(s.stored, Newest(NewestFirst(Entries(s.stored)))));
            Tracks(AddAll(v, EntriesSince(s.stored, t.stored)), NewestFirst(Entries(t.stored)))
  {
    hide *;
    StoredOnlyGrows(s, steps, t);
    var n := |s.stored|;
    var older, newer := Entries(t.stored)[..n], Entries(t.stored)[n..];
    assert t.stored[..n] == s.stored;
    EntriesOfPrefix(t.stored, n);
    assert older + newer == Entries(t.stored);
    NewestFirstConcat(older, newer);
    SinceIsSlice(s.stored, t.stored);
    assert multiset(newer) == multiset(newer) + multiset([]);
    PageFollowsTheStore(s, steps, t, before, newer, []);
  }
}

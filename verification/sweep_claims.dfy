/** What a sweep does to the time of every claim, and to the count of every Deployment (src/cord_runtime/router.py). */
module SweepClaims {
  import opened Basics
  import opened Protocol
  import opened Routes
  import opened RouteFacts
  import opened RouteResponses
  import opened SweepFacts
  import C = Concurrency
  import L = DeploymentLifecycle
  import P = PendingCompletions

  // ---------------------------------------------------------------- claims a cascade cannot touch

  /** No answer maps a Signal to the pair. */
  ghost predicate Unnamed(supply: seq<Answer>, pair: Pair) {
    forall i | 0 <= i < |supply| && supply[i].target.Some? :: supply[i].target.value.1 != pair
  }

  /** No cascade names the pair, or every one finds it taken. */
  ghost predicate Sheltered(w: World, supply: seq<Answer>, pair: Pair, now: real, staleAfter: real) {
    Unnamed(supply, pair) || (0.0 < staleAfter && Taken(w, pair, now, staleAfter))
  }

  predicate SameClaim(v: World, w: World, pair: Pair) {
    (pair in v.claims <==> pair in w.claims) && (pair in w.claims ==> v.claims[pair] == w.claims[pair])
  }

  lemma LevelSparesUnnamed(conns: Connections, w: World, signal: Signal, now: real, staleAfter: real, answer: Answer, pair: Pair)
    requires answer.target.Some? ==> answer.target.value.1 != pair
    ensures SameClaim(Levelled(conns, w, signal, now, staleAfter, answer).world, w, pair)
  {
    if answer.target.Some? && Mapped(conns, answer.target.value) {
      ClaimingClaims(conns, w, RoutingOf(signal, answer.target.value, now, staleAfter), answer);
    }
  }

  lemma {:induction false} CascadeSparesUnnamed(conns: Connections, w: World, signal: Signal, now: real, staleAfter: real, supply: seq<Answer>, pair: Pair)
    requires Unnamed(supply, pair)
    ensures
      var o := AllRouted(conns, w, signal, now, staleAfter, supply);
      SameClaim(o.world, w, pair) && Unnamed(o.rest, pair)
    decreases Room(signal)
  {
    if signal.Depth() <= MAX_CASCADE_DEPTH && |supply| > 0 {
      LevelSparesUnnamed(conns, w, signal, now, staleAfter, supply[0], pair);
      assert forall i | 0 <= i < |supply[1..]| :: supply[1..][i] == supply[i + 1];
      var l := Levelled(conns, w, signal, now, staleAfter, supply[0]);
      if l.finish.Some? {
        CascadeSparesUnnamed(conns, l.world, Finished(l.finish.value), now, staleAfter, supply[1..], pair);
      }
    }
  }

  lemma CascadeSpares(conns: Connections, w: World, signal: Signal, now: real, staleAfter: real, supply: seq<Answer>, pair: Pair)
    requires Sheltered(w, supply, pair, now, staleAfter)
    ensures
      var o := AllRouted(conns, w, signal, now, staleAfter, supply);
      SameClaim(o.world, w, pair) && Sheltered(o.world, o.rest, pair, now, staleAfter) && (Unnamed(supply, pair) ==> Unnamed(o.rest, pair))
  {
    if Unnamed(supply, pair) {
      CascadeSparesUnnamed(conns, w, signal, now, staleAfter, supply, pair);
    } else {
      LiveClaimsStay(conns, w, signal, now, staleAfter, supply, pair);
    }
  }

  // ---------------------------------------------------------------- the time of a claim

  /** An entry seen active renews the pair it holds. */
  predicate Renews(entry: P.Entry, status: Observation, pair: Pair) {
    entry.concurrencyHeld && status.Active? && PairOf(entry) == pair
  }

  ghost predicate RenewedBy(conns: Connections, entries: P.Entries, keys: seq<Key>, statuses: map<Key, Observation>, pair: Pair) {
    exists key | key in keys && key in entries :: Renews(entries[key], StatusOf(conns, statuses, key), pair)
  }

  /** How the claim of a pair stands: gone once freed, at the time of the sweep once renewed, else as it was. */
  predicate ClaimStands(w: World, v: World, pair: Pair, freed: bool, renewed: bool, now: real) {
    if pair !in w.claims || freed then pair !in v.claims
    else pair in v.claims && v.claims[pair] == if renewed then now else w.claims[pair]
  }

  lemma LookedClaim(conns: Connections, w: World, key: Key, entry: P.Entry, status: Observation, now: real, pair: Pair)
    ensures ClaimStands(w, Looked(conns, w, key, entry, status, now), pair, Frees(entry, status, pair), Renews(entry, status, pair), now)
  {
  }

  lemma SweptOneClaim(conns: Connections, w: World, key: Key, entry: P.Entry, status: Observation, now: real, staleAfter: real,
                      supply: seq<Answer>, pair: Pair)
    requires Sheltered(w, supply, pair, now, staleAfter) && (Unnamed(supply, pair) || !Frees(entry, status, pair))
    ensures
      var s := SweptOne(conns, w, key, entry, status, now, staleAfter, supply);
      && ClaimStands(w, s.world, pair, Frees(entry, status, pair), Renews(entry, status, pair), now)
      && Sheltered(s.world, s.rest, pair, now, staleAfter) && (Unnamed(supply, pair) ==> Unnamed(s.rest, pair))
  {
    var v := Looked(conns, w, key, entry, status, now);
    LookedClaim(conns, w, key, entry, status, now, pair);
    assert Sheltered(v, supply, pair, now, staleAfter);
    if status.Completed? {
      CascadeSpares(conns, v, Finished(FinishOf(w.threads, key, entry)), now, staleAfter, supply, pair);
    }
  }

  lemma ByLast(conns: Connections, entries: P.Entries, keys: seq<Key>, statuses: map<Key, Observation>, pair: Pair)
    requires |keys| > 0 && Last(keys) in entries
    ensures FreedBy(conns, entries, keys, statuses, pair) <==>
              FreedBy(conns, entries, keys[..|keys| - 1], statuses, pair) || Frees(entries[Last(keys)], StatusOf(conns, statuses, Last(keys)), pair)
    ensures RenewedBy(conns, entries, keys, statuses, pair) <==>
              RenewedBy(conns, entries, keys[..|keys| - 1], statuses, pair) || Renews(entries[Last(keys)], StatusOf(conns, statuses, Last(keys)), pair)
  {
    FrontOf(keys);
    var front := keys[..|keys| - 1];
    assert forall key :: key in keys <==> key in front || key == Last(keys) by {
      forall key
        ensures key in keys <==> key in front || key == Last(keys)
      {
        assert key in keys <==> key in Elements(keys);
        assert key in front <==> key in Elements(front);
      }
    }
  }

  /**
   After a sweep, in whatever order: a pair no cascade can touch is free if an entry found paused or
   ended held it, is claimed at the time of the sweep if one seen running holds it, and else keeps its
   claim and its time. A pair taken at the start is out of every cascade's reach until it is freed.
   */
  lemma {:induction false} ClaimTimesAfterSweep(conns: Connections, w: World, keys: seq<Key>, statuses: map<Key, Observation>,
                                                now: real, staleAfter: real, supply: seq<Answer>, pair: Pair)
    requires Elements(keys) <= w.entries.Keys && Sheltered(w, supply, pair, now, staleAfter)
    requires Unnamed(supply, pair) || !FreedBy(conns, w.entries, keys, statuses, pair)
    ensures
      var s := SweptAll(conns, w, w.entries, keys, statuses, now, staleAfter, supply);
      && ClaimStands(w, s.world, pair, FreedBy(conns, w.entries, keys, statuses, pair), RenewedBy(conns, w.entries, keys, statuses, pair), now)
      && Sheltered(s.world, s.rest, pair, now, staleAfter) && (Unnamed(supply, pair) ==> Unnamed(s.rest, pair))
  {
    if |keys| > 0 {
      var front, key := keys[..|keys| - 1], Last(keys);
      FrontOf(keys);
      ByLast(conns, w.entries, keys, statuses, pair);
      ClaimTimesAfterSweep(conns, w, front, statuses, now, staleAfter, supply, pair);
      var s := SweptAll(conns, w, w.entries, front, statuses, now, staleAfter, supply);
      SweptOneClaim(conns, s.world, key, w.entries[key], StatusOf(conns, statuses, key), now, staleAfter, s.rest, pair);
    }
  }

  /** So a Run seen running keeps its pair from the time of the sweep on, whatever is routed in between. */
  lemma HeldIsRenewed(conns: Connections, w: World, keys: seq<Key>, statuses: map<Key, Observation>,
                      now: real, staleAfter: real, supply: seq<Answer>, key: Key)
    requires Elements(keys) <= w.entries.Keys && key in keys && key in w.entries
    requires w.entries[key].concurrencyHeld && StatusOf(conns, statuses, key).Active?
    requires 0.0 < staleAfter && Taken(w, PairOf(w.entries[key]), now, staleAfter)
    requires !FreedBy(conns, w.entries, keys, statuses, PairOf(w.entries[key]))
    ensures
      var v := SweptAll(conns, w, w.entries, keys, statuses, now, staleAfter, supply).world;
      PairOf(w.entries[key]) in v.claims && v.claims[PairOf(w.entries[key])] == now
  {
    var pair := PairOf(w.entries[key]);
    assert Renews(w.entries[key], StatusOf(conns, statuses, key), pair);
    ClaimTimesAfterSweep(conns, w, keys, statuses, now, staleAfter, supply, pair);
  }

  // ---------------------------------------------------------------- a claim gone stale

  /**
   A claim that had gone stale is out of this protection: where an entry looked at earlier has ended,
   a Signal its completion causes may take the pair, fail, and give it back, and the sweep renews nothing.
   */
  lemma StaleIsLost(conns: Connections, w: World, ended: Key, held: Key, statuses: map<Key, Observation>,
                    now: real, staleAfter: real, alias: string, probe: L.Probe)
    requires ended in w.entries && held in w.entries && w.entries[held].concurrencyHeld
    requires StatusOf(conns, statuses, ended).Completed? && StatusOf(conns, statuses, held).Active? && w.entries[ended].cascadeDepth < 5
    requires !Taken(w, PairOf(w.entries[held]), now, staleAfter) && Usable(conns, (alias, PairOf(w.entries[held])))
    ensures
      var pair := PairOf(w.entries[held]);
      pair !in SweptAll(conns, w, w.entries, [ended, held], statuses, now, staleAfter, [Answer(Some((alias, pair)), probe, Fails)]).world.claims
  {
    var pair := PairOf(w.entries[held]);
    var supply := [Answer(Some((alias, pair)), probe, Fails)];
    var keys := [ended, held];
    assert Elements(keys) == {ended, held} && keys[..1] == [ended] && Elements([ended]) == {ended};
    assert [ended][..0] == [];
    var v := Looked(conns, w, ended, w.entries[ended], Completed, now);
    var signal := Finished(FinishOf(w.threads, ended, w.entries[ended]));
    CascadeDrops(conns, v, signal, now, staleAfter, alias, pair, probe);
    var s := SweptAll(conns, w, w.entries, [ended], statuses, now, staleAfter, supply);
    assert SweptAll(conns, w, w.entries, [], statuses, now, staleAfter, supply) == Swept(w, supply);
    assert pair !in s.world.claims;
  }

  lemma CascadeDrops(conns: Connections, w: World, signal: Signal, now: real, staleAfter: real, alias: string, pair: Pair, probe: L.Probe)
    requires WithinDepth(signal) && Usable(conns, (alias, pair)) && !Taken(w, pair, now, staleAfter)
    ensures pair !in AllRouted(conns, w, signal, now, staleAfter, [Answer(Some((alias, pair)), probe, Fails)]).world.claims
  {
    var supply := [Answer(Some((alias, pair)), probe, Fails)];
    if Passes(conns, w, signal, now, staleAfter, supply) {
      var r := OwnSubmission(conns, w, signal, now, staleAfter, supply);
    } else {
      var r := RefusedLeaves(conns, w, signal, now, staleAfter, supply);
    }
  }

  // ---------------------------------------------------------------- the count of a Deployment

  /** The tracked Runs of a Deployment that hold its activity. */
  function HeldAt(entries: P.Entries, alias: string): set<Key> {
    set key | key in entries && entries[key].deploymentHeld && key.deployment == alias
  }

  /** The activity counted beyond the tracked Runs that hold it. */
  function Spare(w: World, alias: string): int {
    if alias in w.records then w.records[alias].activeRuns - |HeldAt(w.entries, alias)| else 0
  }

  /** A Deployment that runs and counts every tracked Run that holds it. */
  predicate Balanced(w: World, alias: string) {
    alias in w.records && w.records[alias].status.Running? && Spare(w, alias) >= 0
  }

  /** No cascade relaunches the Deployment. */
  ghost predicate Alive(supply: seq<Answer>, alias: string) {
    forall i | 0 <= i < |supply| && supply[i].target.Some? && supply[i].target.value.0 == alias :: supply[i].probe.alive
  }

  ghost predicate SameSpare(w: World, v: World, alias: string) {
    Balanced(v, alias) && Spare(v, alias) == Spare(w, alias)
  }

  predicate Counts(records: L.Records, alias: string, count: int) {
    alias in records && records[alias].status.Running? && records[alias].activeRuns == count
  }

  /** Starting a running Deployment counts one up, and giving the claim back one down; others are left alone. */
  lemma StartCounts(conns: Connections, records: L.Records, started: string, now: real, probe: L.Probe, alias: string, count: nat)
    requires alias in conns && conns[alias].Managed() && Counts(records, alias, count) && (started == alias ==> probe.alive)
    ensures
      var launched := L.EnsureStarted(records, started, Conn(conns, started), now, probe).0;
      && Counts(launched, alias, if started == alias then count + 1 else count)
      && Counts(L.ReleaseActive(launched, started, Conn(conns, started), now), alias, count)
  {
  }

  lemma RecordsOfRefusal(conns: Connections, w: World, r: Routing, answer: Answer, alias: string)
    requires alias in conns && conns[alias].Managed() && Balanced(w, alias) && (r.alias == alias ==> answer.probe.alive)
    ensures SameSpare(w, Refused(conns, w, r, answer), alias)
  {
    StartCounts(conns, w.records, r.alias, r.now, answer.probe, alias, w.records[alias].activeRuns);
    var v := Refused(conns, w, r, answer);
    assert v.entries == w.entries && v.records == HandedBack(conns, w, r.alias, r.now, answer.probe);
  }

  lemma EntriesOfSubmission(w: World, r: Routing, execution: Execution, alias: string)
    requires FreshOne(w.seen, execution) && w.entries.Keys <= w.seen
    ensures |HeldAt(SubmittedOnce(w, r, execution).entries, alias)| == |HeldAt(w.entries, alias)| + if KeepsRunning(execution) && r.alias == alias then 1 else 0
  {
    var v := SubmittedOnce(w, r, execution).entries;
    if execution.Returns? {
      var key := P.Key(r.alias, execution.thread);
      assert key !in w.entries;
      if KeepsRunning(execution) && r.alias == alias {
        assert HeldAt(v, alias) == HeldAt(w.entries, alias) + {key};
      } else {
        assert HeldAt(v, alias) == HeldAt(w.entries, alias);
      }
    }
  }

  lemma RecordsOfSubmission(conns: Connections, w: World, r: Routing, answer: Answer, alias: string)
    requires alias in conns && conns[alias].Managed() && Balanced(w, alias) && (r.alias == alias ==> answer.probe.alive)
    requires FreshOne(w.seen, answer.execution) && w.entries.Keys <= w.seen
    ensures SameSpare(w, Accepted(conns, w, r, answer), alias)
  {
    EntriesOfSubmission(w, r, answer.execution, alias);
    StartCounts(conns, w.records, r.alias, r.now, answer.probe, alias, w.records[alias].activeRuns);
    var v := Accepted(conns, w, r, answer);
    assert v.entries == SubmittedOnce(w, r, answer.execution).entries;
    assert v.records == if KeepsRunning(answer.execution) then Launched(conns, w, r.alias, r.now, answer.probe)
                        else HandedBack(conns, w, r.alias, r.now, answer.probe);
  }

  lemma LevelBalances(conns: Connections, w: World, signal: Signal, now: real, staleAfter: real, supply: seq<Answer>, alias: string)
    requires |supply| > 0 && WithinDepth(signal) && Fresh(w.seen, supply) && w.entries.Keys <= w.seen
    requires alias in conns && conns[alias].Managed() && Balanced(w, alias) && Alive(supply, alias)
    ensures SameSpare(w, Levelled(conns, w, signal, now, staleAfter, supply[0]).world, alias)
  {
    LevelTells(conns, w, signal, now, staleAfter, supply);
    if FindsFree(conns, w, signal, now, staleAfter, supply) {
      var r := RoutingOf(signal, supply[0].target.value, now, staleAfter);
      if Passes(conns, w, signal, now, staleAfter, supply) {
        AcceptedIs(conns, w, r, supply[0]);
        RecordsOfSubmission(conns, w, r, supply[0], alias);
      } else {
        if CannotStart(conns, w, r.alias, supply[0].probe) {
          FailedLevel(conns, w, r, supply[0]);
        } else {
          DuplicateLevel(conns, w, r, supply[0]);
        }
        RecordsOfRefusal(conns, w, r, supply[0], alias);
      }
    }
  }

  /** A cascade counts a Deployment up exactly by the Runs it leaves running on it. */
  lemma {:induction false} CascadeBalances(conns: Connections, w: World, signal: Signal, now: real, staleAfter: real, supply: seq<Answer>, alias: string)
    requires Fresh(w.seen, supply) && w.entries.Keys <= w.seen
    requires alias in conns && conns[alias].Managed() && Balanced(w, alias) && Alive(supply, alias)
    ensures
      var o := AllRouted(conns, w, signal, now, staleAfter, supply);
      SameSpare(w, o.world, alias) && Alive(o.rest, alias)
    decreases Room(signal)
  {
    if signal.Depth() <= MAX_CASCADE_DEPTH && |supply| > 0 {
      var l := Levelled(conns, w, signal, now, staleAfter, supply[0]);
      LevelBalances(conns, w, signal, now, staleAfter, supply, alias);
      LevelOpens(conns, w, signal, now, staleAfter, supply[0]);
      FreshRest(w.seen, supply, l.world.seen);
      LevelReportsNew(conns, w, signal, now, staleAfter, supply[0]);
      assert forall i | 0 <= i < |supply[1..]| :: supply[1..][i] == supply[i + 1];
      if l.finish.Some? {
        CascadeBalances(conns, l.world, Finished(l.finish.value), now, staleAfter, supply[1..], alias);
      }
    }
  }

  lemma LookedHeld(w: World, key: Key, status: Observation, now: real, alias: string)
    requires key in w.entries
    ensures
      var gone := w.entries[key].deploymentHeld && Settles(status) && key.deployment == alias;
      HeldAt(SweptEntries(w.entries, key, status, now), alias) == HeldAt(w.entries, alias) - (if gone then {key} else {})
  {
  }

  lemma OneFewer(held: set<Key>, key: Key)
    requires key in held
    ensures |held| >= 1 && |held - {key}| == |held| - 1
  {
  }

  lemma LookedCounts(conns: Connections, w: World, key: Key, status: Observation, now: real, alias: string)
    requires key in w.entries && alias in conns && conns[alias].Managed()
    requires alias in w.records && w.records[alias].status.Running?
    requires w.entries[key].deploymentHeld && Settles(status) && key.deployment == alias ==> w.records[alias].activeRuns > 0
    ensures
      var gone := w.entries[key].deploymentHeld && Settles(status) && key.deployment == alias;
      Counts(Looked(conns, w, key, w.entries[key], status, now).records, alias, w.records[alias].activeRuns - if gone then 1 else 0)
  {
  }

  /** An entry found paused or ended gives back the one claim it holds. */
  lemma LookedBalances(conns: Connections, w: World, key: Key, status: Observation, now: real, alias: string)
    requires key in w.entries && alias in conns && conns[alias].Managed() && Balanced(w, alias)
    ensures SameSpare(w, Looked(conns, w, key, w.entries[key], status, now), alias)
  {
    LookedHeld(w, key, status, now, alias);
    if w.entries[key].deploymentHeld && Settles(status) && key.deployment == alias {
      OneFewer(HeldAt(w.entries, alias), key);
    }
    LookedCounts(conns, w, key, status, now, alias);
    assert Looked(conns, w, key, w.entries[key], status, now).entries == SweptEntries(w.entries, key, status, now);
  }

  lemma SweptOneBalances(conns: Connections, w: World, key: Key, status: Observation, now: real, staleAfter: real, supply: seq<Answer>, alias: string)
    requires key in w.entries && Fresh(w.seen, supply) && w.entries.Keys <= w.seen
    requires alias in conns && conns[alias].Managed() && Balanced(w, alias) && Alive(supply, alias)
    ensures
      var s := SweptOne(conns, w, key, w.entries[key], status, now, staleAfter, supply);
      SameSpare(w, s.world, alias) && Alive(s.rest, alias)
  {
    var v := Looked(conns, w, key, w.entries[key], status, now);
    LookedBalances(conns, w, key, status, now, alias);
    assert v.entries.Keys <= w.entries.Keys;
    if status.Completed? {
      CascadeBalances(conns, v, Finished(FinishOf(w.threads, key, w.entries[key])), now, staleAfter, supply, alias);
    }
  }

  /**
   A sweep gives back exactly one claim for each held entry it finds paused or ended and keeps one for
   each Run its cascades leave running: what a Deployment counts beyond its tracked Runs is untouched.
   */
  lemma {:induction false} SweepBalances(conns: Connections, w: World, keys: seq<Key>, statuses: map<Key, Observation>,
                                         now: real, staleAfter: real, supply: seq<Answer>, alias: string)
    requires Fresh(w.seen, supply) && w.entries.Keys <= w.seen && Elements(keys) <= w.entries.Keys && NoDup(keys)
    requires alias in conns && conns[alias].Managed() && Balanced(w, alias) && Alive(supply, alias)
    ensures
      var s := SweptAll(conns, w, w.entries, keys, statuses, now, staleAfter, supply);
      SameSpare(w, s.world, alias) && Alive(s.rest, alias)
  {
    if |keys| > 0 {
      var front, key := keys[..|keys| - 1], Last(keys);
      FrontOf(keys);
      SweepBalances(conns, w, front, statuses, now, staleAfter, supply, alias);
      EntriesAfterSweep(conns, w, front, statuses, now, staleAfter, supply);
      ClaimsAfterSweep(conns, w, front, statuses, now, staleAfter, supply);
      var s := SweptAll(conns, w, w.entries, front, statuses, now, staleAfter, supply);
      assert SameEntry(s.world.entries, w.entries, key);
      SweptOneBalances(conns, s.world, key, StatusOf(conns, statuses, key), now, staleAfter, s.rest, alias);
    }
  }

  /** The held entries a sweep finds paused or ended, and the Runs left running on a Deployment since. */
  ghost function GivenUp(conns: Connections, entries: P.Entries, keys: seq<Key>, statuses: map<Key, Observation>, alias: string): set<Key> {
    set key | key in HeldAt(entries, alias) && key in Elements(keys) && Settles(StatusOf(conns, statuses, key))
  }

  /** So the count goes down by the entries given up and up by the Runs newly tracked. */
  lemma CountAfterSweep(conns: Connections, w: World, keys: seq<Key>, statuses: map<Key, Observation>,
                        now: real, staleAfter: real, supply: seq<Answer>, alias: string)
    requires Fresh(w.seen, supply) && w.entries.Keys <= w.seen && Elements(keys) <= w.entries.Keys && NoDup(keys)
    requires alias in conns && conns[alias].Managed() && Balanced(w, alias) && Alive(supply, alias)
    ensures
      var v := SweptAll(conns, w, w.entries, keys, statuses, now, staleAfter, supply).world;
      && alias in v.records && v.records[alias].status.Running?
      && v.records[alias].activeRuns == w.records[alias].activeRuns - |GivenUp(conns, w.entries, keys, statuses, alias)|
                                        + |HeldAt(v.entries, alias) - w.entries.Keys|
  {
    var v := SweptAll(conns, w, w.entries, keys, statuses, now, staleAfter, supply).world;
    SweepBalances(conns, w, keys, statuses, now, staleAfter, supply, alias);
    EntriesAfterSweep(conns, w, keys, statuses, now, staleAfter, supply);
    var before, after, gone := HeldAt(w.entries, alias), HeldAt(v.entries, alias), GivenUp(conns, w.entries, keys, statuses, alias);
    forall key | key in w.entries
      ensures key in after <==> key in before && key !in gone
    {
      StillHeld(conns, w, v.entries, keys, statuses, now, alias, key);
    }
    Tally(before, after, gone, w.entries.Keys);
  }

  /** An entry swept still holds its Deployment exactly when it did and the Run is neither paused nor ended. */
  lemma StillHeld(conns: Connections, w: World, entries: P.Entries, keys: seq<Key>, statuses: map<Key, Observation>, now: real, alias: string, key: Key)
    requires key in w.entries
    requires if key in Elements(keys) then StandsAs(w.entries, entries, key, StatusOf(conns, statuses, key), now) else SameEntry(entries, w.entries, key)
    ensures key in HeldAt(entries, alias) <==> key in HeldAt(w.entries, alias) && key !in GivenUp(conns, w.entries, keys, statuses, alias)
  {
  }

  lemma Tally(before: set<Key>, after: set<Key>, gone: set<Key>, known: set<Key>)
    requires gone <= before <= known && forall key | key in known :: key in after <==> key in before && key !in gone
    ensures |after| == |before| - |gone| + |after - known|
  {
    assert after == (before - gone) + (after - known);
    assert |before - gone| == |before| - |gone|;
  }
}

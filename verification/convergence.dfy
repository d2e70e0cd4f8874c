/** From live display to durable record, within a bound (src/cord_runtime/live_reconciliation.py). */
module Convergence {
  import opened Basics
  import opened Live

  datatype Source = Shown | IngestionPending | IngestionFailed

  function Rank(s: Source): nat {
    match s
    case Shown => 0
    case IngestionPending => 1
    case IngestionFailed => 2
  }

  datatype View = View(status: string, source: Source, sinceCompletion: Option<real>)

  type LiveRuns = map<string, State>

  function Elapsed(now: real, completedAt: real): real {
    if now - completedAt > 0.0 then now - completedAt else 0.0
  }

  function SourceOf(s: State, now: real, pendingAfter: real, failedAfter: real): Source {
    if s.completedAt.None? then Shown
    else if Elapsed(now, s.completedAt.value) >= failedAfter then IngestionFailed
    else if Elapsed(now, s.completedAt.value) >= pendingAfter then IngestionPending
    else Shown
  }

  /** With the clock, a Run's shown source only moves on: live, pending, failed. */
  lemma SourceMovesOn(s: State, now: real, later: real, pendingAfter: real, failedAfter: real)
    requires now <= later
    ensures Rank(SourceOf(s, now, pendingAfter, failedAfter)) <= Rank(SourceOf(s, later, pendingAfter, failedAfter))
  {
    if s.completedAt.Some? {
      assert Elapsed(now, s.completedAt.value) <= Elapsed(later, s.completedAt.value);
    }
  }

  function ViewOf(s: State, now: real, pendingAfter: real, failedAfter: real): View {
    View(s.status, SourceOf(s, now, pendingAfter, failedAfter),
         if s.completedAt.None? then None else Some(Elapsed(now, s.completedAt.value)))
  }

  /** A view of a Run whose deadlines lie ahead of its completion: each source exactly in its span of time. */
  predicate ShowsTime(s: State, v: View, now: real, pendingAfter: real, failedAfter: real) {
    && v.status == s.status
    && (v.sinceCompletion.Some? <==> s.completedAt.Some?)
    && (v.source.IngestionFailed? <==> s.completedAt.Some? && now >= s.completedAt.value + failedAfter)
    && (v.source.IngestionPending? <==> s.completedAt.Some? && s.completedAt.value + pendingAfter <= now < s.completedAt.value + failedAfter)
    && (s.completedAt.Some? && now >= s.completedAt.value ==> v.sinceCompletion == Some(now - s.completedAt.value))
  }

  /** Shows exactly the Runs without a durable record; a recorded Run is never live too. */
  method Reconcile(live: LiveRuns, recorded: set<string>, now: real, pendingAfter: real, failedAfter: real) returns (views: map<string, View>)
    ensures views.Keys == live.Keys - recorded
    ensures forall id | id in views :: views[id] == ViewOf(live[id], now, pendingAfter, failedAfter)
    ensures pendingAfter > 0.0 && failedAfter > 0.0 ==> forall id | id in views :: ShowsTime(live[id], views[id], now, pendingAfter, failedAfter)
  {
    views := map[];
    var left := live.Keys;
    while left != {}
      invariant left <= live.Keys && views.Keys == (live.Keys - left) - recorded
      invariant forall id | id in views :: views[id] == ViewOf(live[id], now, pendingAfter, failedAfter)
      decreases left
    {
      var id :| id in left;
      left := left - {id};
      if id in recorded { continue; }
      var source, seconds := Shown, None;
      if live[id].completedAt.Some? {
        var elapsed := if now - live[id].completedAt.value > 0.0 then now - live[id].completedAt.value else 0.0;
        seconds := Some(elapsed);
        if elapsed >= failedAfter {
          source := IngestionFailed;
        } else if elapsed >= pendingAfter {
          source := IngestionPending;
        }
      }
      views := views[id := View(live[id].status, source, seconds)];
    }
  }

  predicate Resolved(live: LiveRuns, recorded: set<string>, now: real, failedAfter: real, id: string)
    requires id in live
  {
    live[id].completedAt.None? || id in recorded || Elapsed(now, live[id].completedAt.value) >= failedAfter
  }

  /** No completed Run is younger than the latest completion. */
  predicate LatestCompletion(live: LiveRuns, latest: real) {
    forall id | id in live && live[id].completedAt.Some? :: live[id].completedAt.value <= latest
  }

  /** The clock read at each poll moves on by at least one interval between polls. */
  ghost predicate Ticks(clock: nat -> real, interval: real) {
    forall k: nat, m: nat | k < m :: clock(m) >= clock(k) + interval * (m - k) as real
  }

  /** Reading the archive afresh at every poll, whatever it answers, until every completed Run is recorded or failed. */
  method AwaitConvergence(live: LiveRuns, archive: nat -> set<string>, clock: nat -> real, interval: real, pendingAfter: real, failedAfter: real,
                          ghost latest: real, ghost bound: nat)
    returns (shown: seq<map<string, View>>)
    requires interval > 0.0 && Ticks(clock, interval) && LatestCompletion(live, latest)
    requires bound as real * interval >= latest + failedAfter - clock(0)
    ensures 0 < |shown| <= bound + 1
    ensures forall k | 0 <= k < |shown| ::
              shown[k].Keys == live.Keys - archive(k)
              && forall id | id in shown[k] :: shown[k][id] == ViewOf(live[id], clock(k), pendingAfter, failedAfter)
    ensures forall id | id in live :: Resolved(live, archive(|shown| - 1), clock(|shown| - 1), failedAfter, id)
  {
    shown := [];
    var unresolved := true;
    var polls := 0;
    while unresolved
      invariant polls == |shown| && (unresolved ==> polls <= bound)
      invariant !unresolved ==> 0 < polls <= bound + 1
      invariant forall k | 0 <= k < polls ::
                  shown[k].Keys == live.Keys - archive(k)
                  && forall id | id in shown[k] :: shown[k][id] == ViewOf(live[id], clock(k), pendingAfter, failedAfter)
      invariant !unresolved ==> forall id | id in live :: Resolved(live, archive(polls - 1), clock(polls - 1), failedAfter, id)
      decreases bound + 1 - polls, unresolved
    {
      var views := Reconcile(live, archive(polls), clock(polls), pendingAfter, failedAfter);
      shown := shown + [views];
      var open := set id | id in live && live[id].completedAt.Some? && id in views && !views[id].source.IngestionFailed?;
      unresolved := open != {};
      OpenIsUnresolved(live, views, archive(polls), clock(polls), pendingAfter, failedAfter, open);
      if unresolved && polls == bound {
        AllFailedByNow(live, clock, interval, failedAfter, latest, bound);
      }
      polls := polls + 1;
    }
  }

  lemma OpenIsUnresolved(live: LiveRuns, views: map<string, View>, recorded: set<string>, now: real, pendingAfter: real, failedAfter: real, open: set<string>)
    requires views.Keys == live.Keys - recorded
    requires forall id | id in views :: views[id] == ViewOf(live[id], now, pendingAfter, failedAfter)
    requires open == set id | id in live && live[id].completedAt.Some? && id in views && !views[id].source.IngestionFailed?
    ensures open == {} <==> forall id | id in live :: Resolved(live, recorded, now, failedAfter, id)
    ensures open != {} ==> exists id | id in live && live[id].completedAt.Some? :: Elapsed(now, live[id].completedAt.value) < failedAfter
  {
    if open != {} {
      var id :| id in open;
      assert !Resolved(live, recorded, now, failedAfter, id);
    }
    forall id | id in live && !Resolved(live, recorded, now, failedAfter, id)
      ensures id in open
    {
    }
  }

  /** Past the bound every completed Run is beyond its deadline, recorded or not. */
  lemma AllFailedByNow(live: LiveRuns, clock: nat -> real, interval: real, failedAfter: real, latest: real, bound: nat)
    requires interval > 0.0 && Ticks(clock, interval) && LatestCompletion(live, latest)
    requires bound as real * interval >= latest + failedAfter - clock(0)
    ensures forall id | id in live && live[id].completedAt.Some? :: Elapsed(clock(bound), live[id].completedAt.value) >= failedAfter
  {
    if bound > 0 {
      assert clock(bound) >= clock(0) + interval * (bound - 0) as real;
    }
    assert clock(bound) >= latest + failedAfter;
  }

  /** However the archive's answers flicker, a Run shown at two polls has only moved on in between. */
  lemma ShownMovesOn(live: LiveRuns, shown: seq<map<string, View>>, clock: nat -> real, interval: real, pendingAfter: real, failedAfter: real,
                     j: nat, k: nat, id: string)
    requires interval > 0.0 && Ticks(clock, interval) && j <= k < |shown| && id in live && id in shown[j] && id in shown[k]
    requires shown[j][id] == ViewOf(live[id], clock(j), pendingAfter, failedAfter)
    requires shown[k][id] == ViewOf(live[id], clock(k), pendingAfter, failedAfter)
    ensures Rank(shown[j][id].source) <= Rank(shown[k][id].source)
  {
    if j < k {
      assert clock(k) >= clock(j) + interval * (k - j) as real;
      SourceMovesOn(live[id], clock(j), clock(k), pendingAfter, failedAfter);
    }
  }
}

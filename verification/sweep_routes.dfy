/** What a sweep does with each Run it finds completed: its finish is routed, and answered when it can be (src/cord_runtime/router.py). */
module SweepRoutes {
  import opened Basics
  import opened Protocol
  import opened Routes
  import opened RouteFacts
  import opened RouteResponses
  import opened SweepFacts
  import C = Concurrency
  import L = DeploymentLifecycle
  import P = PendingCompletions

  // ---------------------------------------------------------------- one completed entry

  /** The finish of a tracked Run, told from the records the sweep began with. */
  function TrackedFinish(w: World, key: Key, entry: P.Entry): Finish {
    Finish(key, if key in w.threads then w.threads[key].runId else entry.invocation, C.Pair(entry.assistant, entry.subject), entry.cascadeDepth)
  }

  function FinishSignal(w: World, key: Key, entry: P.Entry): Signal {
    Signal("run.finished:" + TrackedFinish(w, key, entry).runId, Some(TrackedFinish(w, key, entry)))
  }

  /** Both claims the entry held given back, the entry gone and the finish noted. */
  function Completed(conns: Connections, w: World, v: World, key: Key, entry: P.Entry, now: real): World {
    v.(claims := if entry.concurrencyHeld then v.claims - {C.Pair(entry.assistant, entry.subject)} else v.claims,
       records := if entry.deploymentHeld then L.ReleaseActive(v.records, key.deployment, Conn(conns, key.deployment), now) else v.records,
       entries := v.entries - {key},
       finished := v.finished + [TrackedFinish(w, key, entry)])
  }

  lemma CompletedIs(conns: Connections, w: World, v: World, key: Key, entry: P.Entry, now: real, staleAfter: real, supply: seq<Answer>)
    requires SameThread(v, w, key)
    ensures
      var o := AllRouted(conns, Completed(conns, w, v, key, entry, now), FinishSignal(w, key, entry), now, staleAfter, supply);
      SweptOne(conns, v, key, entry, Observation.Completed, now, staleAfter, supply) == Swept(o.world, o.rest)
  {
    assert FinishOf(v.threads, key, entry) == TrackedFinish(w, key, entry);
    assert Looked(conns, v, key, entry, Observation.Completed, now) == Completed(conns, w, v, key, entry, now);
  }

  /** An entry found otherwise submits and reports nothing. */
  lemma OthersAreSilent(conns: Connections, w: World, key: Key, entry: P.Entry, status: Observation, now: real, staleAfter: real, supply: seq<Answer>)
    requires !status.Completed?
    ensures
      var s := SweptOne(conns, w, key, entry, status, now, staleAfter, supply);
      s.rest == supply && s.world.submissions == w.submissions && s.world.finished == w.finished
  {
  }

  // ---------------------------------------------------------------- in the course of a sweep

  /** The stores after the entries before the `i`-th. */
  ghost function Before(conns: Connections, w: World, keys: seq<Key>, statuses: map<Key, Observation>, now: real, staleAfter: real,
                        supply: seq<Answer>, i: nat): Swept
    requires Elements(keys) <= w.entries.Keys && i <= |keys|
  {
    assert Elements(keys[..i]) <= Elements(keys);
    SweptAll(conns, w, w.entries, keys[..i], statuses, now, staleAfter, supply)
  }

  lemma FrontIs(keys: seq<Key>, i: nat)
    requires i < |keys|
    ensures keys[..i + 1][..i] == keys[..i] && Last(keys[..i + 1]) == keys[i]
  {
  }

  lemma BeforeNext(conns: Connections, w: World, keys: seq<Key>, statuses: map<Key, Observation>, now: real, staleAfter: real,
                   supply: seq<Answer>, i: nat)
    requires Elements(keys) <= w.entries.Keys && i < |keys| && keys[i] in w.entries
    ensures
      var s := Before(conns, w, keys, statuses, now, staleAfter, supply, i);
      Before(conns, w, keys, statuses, now, staleAfter, supply, i + 1)
      == SweptOne(conns, s.world, keys[i], w.entries[keys[i]], StatusOf(conns, statuses, keys[i]), now, staleAfter, s.rest)
  {
    FrontIs(keys, i);
  }

  /** Submissions once made stay. */
  lemma {:induction false} SubmissionsStay(conns: Connections, w: World, keys: seq<Key>, statuses: map<Key, Observation>, now: real, staleAfter: real,
                                           supply: seq<Answer>, i: nat, j: nat)
    requires Elements(keys) <= w.entries.Keys && i <= j <= |keys|
    ensures Before(conns, w, keys, statuses, now, staleAfter, supply, i).world.submissions
            <= Before(conns, w, keys, statuses, now, staleAfter, supply, j).world.submissions
    decreases j
  {
    if i < j {
      assert keys[j - 1] in Elements(keys);
      SubmissionsStay(conns, w, keys, statuses, now, staleAfter, supply, i, j - 1);
      BeforeNext(conns, w, keys, statuses, now, staleAfter, supply, j - 1);
      var s := Before(conns, w, keys, statuses, now, staleAfter, supply, j - 1);
      SweptOneSubmits(conns, s.world, keys[j - 1], w.entries[keys[j - 1]], StatusOf(conns, statuses, keys[j - 1]), now, staleAfter, s.rest);
    }
  }

  /** The stores the `i`-th entry finds, its claims given back, if its Run is found completed. */
  ghost function AtTurn(conns: Connections, w: World, keys: seq<Key>, statuses: map<Key, Observation>, now: real, staleAfter: real,
                        supply: seq<Answer>, i: nat): World
    requires Elements(keys) <= w.entries.Keys && i < |keys| && keys[i] in w.entries
  {
    Completed(conns, w, Before(conns, w, keys, statuses, now, staleAfter, supply, i).world, keys[i], w.entries[keys[i]], now)
  }

  /** The finish of the `i`-th entry passes every hurdle at its turn. */
  ghost predicate CanBeAnswered(conns: Connections, w: World, keys: seq<Key>, statuses: map<Key, Observation>, now: real, staleAfter: real,
                                supply: seq<Answer>, i: nat)
    requires Elements(keys) <= w.entries.Keys && i < |keys| && keys[i] in w.entries
  {
    Passes(conns, AtTurn(conns, w, keys, statuses, now, staleAfter, supply, i), FinishSignal(w, keys[i], w.entries[keys[i]]), now, staleAfter,
           Before(conns, w, keys, statuses, now, staleAfter, supply, i).rest)
  }

  lemma RoutedAtTurn(conns: Connections, w: World, keys: seq<Key>, statuses: map<Key, Observation>, now: real, staleAfter: real,
                     supply: seq<Answer>, i: nat)
    requires Fresh(w.seen, supply) && w.entries.Keys <= w.seen && Elements(keys) <= w.entries.Keys && NoDup(keys)
    requires i < |keys| && keys[i] in w.entries && StatusOf(conns, statuses, keys[i]).Completed?
    ensures
      var v, rest := AtTurn(conns, w, keys, statuses, now, staleAfter, supply, i), Before(conns, w, keys, statuses, now, staleAfter, supply, i).rest;
      var o := AllRouted(conns, v, FinishSignal(w, keys[i], w.entries[keys[i]]), now, staleAfter, rest);
      Before(conns, w, keys, statuses, now, staleAfter, supply, i + 1) == Swept(o.world, o.rest)
  {
    assert Elements(keys[..i]) <= Elements(keys);
    ThreadsAfterSweep(conns, w, keys[..i], statuses, now, staleAfter, supply);
    BeforeNext(conns, w, keys, statuses, now, staleAfter, supply, i);
    var s := Before(conns, w, keys, statuses, now, staleAfter, supply, i);
    assert SameThread(s.world, w, keys[i]);
    CompletedIs(conns, w, s.world, keys[i], w.entries[keys[i]], now, staleAfter, s.rest);
  }

  /** Routing answers a Signal that passes every hurdle with a submission of its own, and any other with none. */
  lemma RoutedSubmits(conns: Connections, w: World, signal: Signal, now: real, staleAfter: real, supply: seq<Answer>) returns (r: Routing)
    ensures
      var v := AllRouted(conns, w, signal, now, staleAfter, supply).world;
      if Passes(conns, w, signal, now, staleAfter, supply) then
        && |w.submissions| < |v.submissions| && v.submissions[|w.submissions|].routing == r
        && Carries(r, signal, supply[0].target.value, now, staleAfter)
      else v.submissions == w.submissions
  {
    if Passes(conns, w, signal, now, staleAfter, supply) {
      r := OwnSubmission(conns, w, signal, now, staleAfter, supply);
      SubmittedFirst(conns, w, r, supply[0]);
      if supply[0].execution.Returns? && supply[0].execution.outcome.Succeeded? {
        var run := supply[0].execution.run;
        var finish := Finish(P.Key(r.alias, supply[0].execution.thread), run, r.pair, r.depth);
        CascadeTrail(conns, Accepted(conns, w, r, supply[0]), Signal("run.finished:" + run, Some(finish)), now, staleAfter, supply[1..]);
      }
    } else {
      r := RefusedLeaves(conns, w, signal, now, staleAfter, supply);
    }
  }

  lemma SubmittedFirst(conns: Connections, w: World, r: Routing, answer: Answer)
    ensures Accepted(conns, w, r, answer).submissions == w.submissions + [Submission(r, |w.claimCalls|)]
  {
  }

  /**
   A Run found completed gets a child of its own exactly when its finish passes every hurdle at its
   turn: the first submission made then is that child, it carries the finish and one depth more, and it
   is there when the sweep ends. Otherwise nothing is submitted for it.
   */
  lemma EachFinishIsRouted(conns: Connections, w: World, keys: seq<Key>, statuses: map<Key, Observation>, now: real, staleAfter: real,
                           supply: seq<Answer>, i: nat) returns (r: Routing)
    requires Fresh(w.seen, supply) && w.entries.Keys <= w.seen && Elements(keys) <= w.entries.Keys && NoDup(keys)
    requires i < |keys| && keys[i] in w.entries && StatusOf(conns, statuses, keys[i]).Completed?
    ensures
      var made := |Before(conns, w, keys, statuses, now, staleAfter, supply, i).world.submissions|;
      var next := |Before(conns, w, keys, statuses, now, staleAfter, supply, i + 1).world.submissions|;
      var v := SweptAll(conns, w, w.entries, keys, statuses, now, staleAfter, supply).world;
      if CanBeAnswered(conns, w, keys, statuses, now, staleAfter, supply, i) then
        && made < next <= |v.submissions| && v.submissions[made].routing == r
        && Carries(r, FinishSignal(w, keys[i], w.entries[keys[i]]),
                   Before(conns, w, keys, statuses, now, staleAfter, supply, i).rest[0].target.value, now, staleAfter)
      else next == made
  {
    RoutedAtTurn(conns, w, keys, statuses, now, staleAfter, supply, i);
    var s := Before(conns, w, keys, statuses, now, staleAfter, supply, i);
    r := RoutedSubmits(conns, AtTurn(conns, w, keys, statuses, now, staleAfter, supply, i), FinishSignal(w, keys[i], w.entries[keys[i]]), now, staleAfter, s.rest);
    SubmissionsStay(conns, w, keys, statuses, now, staleAfter, supply, i + 1, |keys|);
    assert keys[..|keys|] == keys;
  }

  // ---------------------------------------------------------------- what the sweep answers

  /** The Runs seen paused or ended, of registered Deployments, in the order they were looked at. */
  function SeenAtRest(conns: Connections, keys: seq<Key>, statuses: map<Key, Observation>): seq<Key> {
    if |keys| == 0 then []
    else
      var front, key := SeenAtRest(conns, keys[..|keys| - 1], statuses), keys[|keys| - 1];
      if key.deployment in conns && key in statuses && statuses[key] != Active && statuses[key] != Unreachable then front + [key] else front
  }

  /** One line for each Run seen paused or ended, with what it was seen as, and a response exactly for a completed one. */
  ghost predicate Lists(conns: Connections, keys: seq<Key>, statuses: map<Key, Observation>, observed: seq<Observed>) {
    var atRest := SeenAtRest(conns, keys, statuses);
    && |observed| == |atRest|
    && forall j | 0 <= j < |observed| ::
         && observed[j].key == atRest[j] && atRest[j] in statuses && observed[j].status == statuses[atRest[j]]
         && (observed[j].cascade.Some? <==> statuses[atRest[j]].Completed?)
  }

  lemma {:induction false} SweepAnswers(conns: Connections, w: World, keys: seq<Key>, statuses: map<Key, Observation>, now: real, staleAfter: real,
                                        supply: seq<Answer>)
    requires Elements(keys) <= w.entries.Keys
    ensures Lists(conns, keys, statuses, ObservedAll(conns, w, w.entries, keys, statuses, now, staleAfter, supply))
  {
    if |keys| > 0 {
      var front, key := keys[..|keys| - 1], Last(keys);
      FrontOf(keys);
      SweepAnswers(conns, w, front, statuses, now, staleAfter, supply);
    }
  }

  /** The lines before the `i`-th entry. */
  ghost function Lines(conns: Connections, w: World, keys: seq<Key>, statuses: map<Key, Observation>, now: real, staleAfter: real,
                       supply: seq<Answer>, i: nat): seq<Observed>
    requires Elements(keys) <= w.entries.Keys && i <= |keys|
  {
    assert Elements(keys[..i]) <= Elements(keys);
    ObservedAll(conns, w, w.entries, keys[..i], statuses, now, staleAfter, supply)
  }

  lemma LinesNext(conns: Connections, w: World, keys: seq<Key>, statuses: map<Key, Observation>, now: real, staleAfter: real,
                  supply: seq<Answer>, i: nat)
    requires Elements(keys) <= w.entries.Keys && i < |keys| && keys[i] in w.entries
    ensures
      var s := Before(conns, w, keys, statuses, now, staleAfter, supply, i);
      Lines(conns, w, keys, statuses, now, staleAfter, supply, i + 1)
      == Lines(conns, w, keys, statuses, now, staleAfter, supply, i)
         + ObservedOne(conns, s.world, keys[i], w.entries[keys[i]], StatusOf(conns, statuses, keys[i]), now, staleAfter, s.rest)
  {
    FrontIs(keys, i);
  }

  lemma {:induction false} LinesStay(conns: Connections, w: World, keys: seq<Key>, statuses: map<Key, Observation>, now: real, staleAfter: real,
                                     supply: seq<Answer>, i: nat, j: nat)
    requires Elements(keys) <= w.entries.Keys && i <= j <= |keys|
    ensures Lines(conns, w, keys, statuses, now, staleAfter, supply, i) <= Lines(conns, w, keys, statuses, now, staleAfter, supply, j)
    decreases j
  {
    if i < j {
      assert keys[j - 1] in Elements(keys);
      LinesStay(conns, w, keys, statuses, now, staleAfter, supply, i, j - 1);
      LinesNext(conns, w, keys, statuses, now, staleAfter, supply, j - 1);
    }
  }

  lemma CompletedAnswers(conns: Connections, w: World, v: World, key: Key, entry: P.Entry, now: real, staleAfter: real, supply: seq<Answer>)
    requires SameThread(v, w, key)
    ensures
      var o := AllRouted(conns, Completed(conns, w, v, key, entry, now), FinishSignal(w, key, entry), now, staleAfter, supply);
      ObservedOne(conns, v, key, entry, Observation.Completed, now, staleAfter, supply) == [Observed(key, Observation.Completed, Some(o.response))]
  {
    assert FinishOf(v.threads, key, entry) == TrackedFinish(w, key, entry);
    assert Looked(conns, v, key, entry, Observation.Completed, now) == Completed(conns, w, v, key, entry, now);
  }

  /** And the response listed for a completed Run is the one its finish got at its turn. */
  lemma ResponseIsListed(conns: Connections, w: World, keys: seq<Key>, statuses: map<Key, Observation>, now: real, staleAfter: real,
                         supply: seq<Answer>, i: nat)
    requires Fresh(w.seen, supply) && w.entries.Keys <= w.seen && Elements(keys) <= w.entries.Keys && NoDup(keys)
    requires i < |keys| && keys[i] in w.entries && StatusOf(conns, statuses, keys[i]).Completed?
    ensures
      var rest := Before(conns, w, keys, statuses, now, staleAfter, supply, i).rest;
      var v := AtTurn(conns, w, keys, statuses, now, staleAfter, supply, i);
      var o := AllRouted(conns, v, FinishSignal(w, keys[i], w.entries[keys[i]]), now, staleAfter, rest);
      Observed(keys[i], Observation.Completed, Some(o.response)) in ObservedAll(conns, w, w.entries, keys, statuses, now, staleAfter, supply)
  {
    assert Elements(keys[..i]) <= Elements(keys);
    ThreadsAfterSweep(conns, w, keys[..i], statuses, now, staleAfter, supply);
    var s := Before(conns, w, keys, statuses, now, staleAfter, supply, i);
    assert SameThread(s.world, w, keys[i]);
    CompletedAnswers(conns, w, s.world, keys[i], w.entries[keys[i]], now, staleAfter, s.rest);
    LinesNext(conns, w, keys, statuses, now, staleAfter, supply, i);
    LinesStay(conns, w, keys, statuses, now, staleAfter, supply, i + 1, |keys|);
    LineKept(conns, w, keys, statuses, now, staleAfter, supply, i);
  }

  lemma LineKept(conns: Connections, w: World, keys: seq<Key>, statuses: map<Key, Observation>, now: real, staleAfter: real,
                 supply: seq<Answer>, i: nat)
    requires Elements(keys) <= w.entries.Keys && i < |keys|
    requires Lines(conns, w, keys, statuses, now, staleAfter, supply, i + 1) <= Lines(conns, w, keys, statuses, now, staleAfter, supply, |keys|)
    ensures forall o | o in Lines(conns, w, keys, statuses, now, staleAfter, supply, i + 1) ::
              o in ObservedAll(conns, w, w.entries, keys, statuses, now, staleAfter, supply)
  {
    assert keys[..|keys|] == keys;
  }
}

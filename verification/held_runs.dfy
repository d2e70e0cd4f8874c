/**
 A Run that outlives its call keeps its (Assistant, Subject) to itself for as long as sweeps see it
 running in time, over any sequence of routed Signals, answers and sweeps (src/cord_runtime/router.py).
 */
module HeldRuns {
  import opened Basics
  import opened Protocol
  import opened Routes
  import opened RouteFacts
  import opened RouteResponses
  import opened SweepFacts
  import opened SweepClaims
  import ApprovalInbox
  import ApprovalResults
  import C = Concurrency
  import L = DeploymentLifecycle
  import P = PendingCompletions

  // ---------------------------------------------------------------- what does not touch a taken pair

  /** No submission from the given one on is for the pair. */
  ghost predicate NoneFor(submissions: seq<Submission>, from: nat, pair: Pair) {
    from <= |submissions| && forall k | from <= k < |submissions| :: submissions[k].routing.pair != pair
  }

  /** Whoever is tracked since holds another pair. */
  ghost predicate NewHoldOthers(w: World, v: World, pair: Pair) {
    forall key | key in v.entries && key !in w.seen :: PairOf(v.entries[key]) != pair
  }

  ghost predicate Avoids(w: World, v: World, pair: Pair) {
    && w.submissions <= v.submissions && NoneFor(v.submissions, |w.submissions|, pair)
    && NewHoldOthers(w, v, pair) && v.entries.Keys <= v.seen && w.seen <= v.seen
  }

  /** Known Threads keep their entry. */
  ghost predicate EntriesKept(w: World, v: World) {
    forall key | key in w.seen :: SameEntry(v.entries, w.entries, key)
  }

  lemma AvoidsOn(w: World, u: World, v: World, pair: Pair)
    requires Avoids(w, u, pair) && Avoids(u, v, pair) && EntriesKept(u, v)
    ensures Avoids(w, v, pair)
  {
    forall k | |w.submissions| <= k < |v.submissions|
      ensures v.submissions[k].routing.pair != pair
    {
      if k < |u.submissions| {
        assert v.submissions[k] == u.submissions[k];
      }
    }
    forall key | key in v.entries && key !in w.seen
      ensures PairOf(v.entries[key]) != pair
    {
      assert key in u.seen ==> SameEntry(v.entries, u.entries, key);
    }
  }

  lemma LevelAvoids(conns: Connections, w: World, signal: Signal, now: real, staleAfter: real, supply: seq<Answer>, pair: Pair)
    requires |supply| > 0 && WithinDepth(signal) && FreshOne(w.seen, supply[0].execution) && w.entries.Keys <= w.seen
    requires Taken(w, pair, now, staleAfter)
    ensures Avoids(w, Levelled(conns, w, signal, now, staleAfter, supply[0]).world, pair)
  {
    LevelTells(conns, w, signal, now, staleAfter, supply);
    LevelledDoes(conns, w, signal, now, staleAfter, supply[0]);
  }

  /** A cascade that finds the pair taken submits nothing for it. */
  lemma {:induction false} CascadeAvoids(conns: Connections, w: World, signal: Signal, now: real, staleAfter: real, supply: seq<Answer>, pair: Pair)
    requires Fresh(w.seen, supply) && w.entries.Keys <= w.seen && Taken(w, pair, now, staleAfter)
    ensures Avoids(w, AllRouted(conns, w, signal, now, staleAfter, supply).world, pair)
    decreases Room(signal)
  {
    if signal.Depth() <= MAX_CASCADE_DEPTH && |supply| > 0 {
      var l := Levelled(conns, w, signal, now, staleAfter, supply[0]);
      LevelAvoids(conns, w, signal, now, staleAfter, supply, pair);
      LevelSpares(conns, w, signal, now, staleAfter, supply[0], pair);
      LevelOpens(conns, w, signal, now, staleAfter, supply[0]);
      FreshRest(w.seen, supply, l.world.seen);
      if l.finish.Some? {
        var v := AllRouted(conns, l.world, Finished(l.finish.value), now, staleAfter, supply[1..]).world;
        CascadeAvoids(conns, l.world, Finished(l.finish.value), now, staleAfter, supply[1..], pair);
        CascadeKeeps(conns, l.world, Finished(l.finish.value), now, staleAfter, supply[1..]);
        KeptEntries(l.world, v);
        AvoidsOn(w, l.world, v, pair);
      }
    }
  }

  lemma KeptEntries(w: World, v: World)
    requires OldKept(w, v)
    ensures EntriesKept(w, v)
  {
    forall key | key in w.seen
      ensures SameEntry(v.entries, w.entries, key)
    {
      assert SameAt(w, v, key);
    }
  }

  lemma SweptOneAvoids(conns: Connections, w: World, key: Key, entry: P.Entry, status: Observation, now: real, staleAfter: real,
                       supply: seq<Answer>, pair: Pair)
    requires Fresh(w.seen, supply) && w.entries.Keys <= w.seen
    requires 0.0 < staleAfter && Taken(w, pair, now, staleAfter) && !Frees(entry, status, pair)
    ensures Avoids(w, SweptOne(conns, w, key, entry, status, now, staleAfter, supply).world, pair)
  {
    var v := Looked(conns, w, key, entry, status, now);
    LookedClaim(conns, w, key, entry, status, now, pair);
    assert v.entries.Keys <= w.entries.Keys && v.submissions == w.submissions;
    if status.Completed? {
      CascadeAvoids(conns, v, Finished(FinishOf(w.threads, key, entry)), now, staleAfter, supply, pair);
    }
  }

  /** Nor does a whole sweep, while the pair is taken and nobody gives it up. */
  lemma {:induction false} SweepAvoids(conns: Connections, w: World, keys: seq<Key>, statuses: map<Key, Observation>,
                                       now: real, staleAfter: real, supply: seq<Answer>, pair: Pair)
    requires Fresh(w.seen, supply) && w.entries.Keys <= w.seen && Elements(keys) <= w.entries.Keys && NoDup(keys)
    requires 0.0 < staleAfter && Taken(w, pair, now, staleAfter) && !FreedBy(conns, w.entries, keys, statuses, pair)
    ensures Avoids(w, SweptAll(conns, w, w.entries, keys, statuses, now, staleAfter, supply).world, pair)
  {
    if |keys| > 0 {
      var front, key := keys[..|keys| - 1], Last(keys);
      var status := StatusOf(conns, statuses, key);
      FrontOf(keys);
      ByLast(conns, w.entries, keys, statuses, pair);
      SweepAvoids(conns, w, front, statuses, now, staleAfter, supply, pair);
      ClaimTimesAfterSweep(conns, w, front, statuses, now, staleAfter, supply, pair);
      EntriesAfterSweep(conns, w, front, statuses, now, staleAfter, supply);
      var s := SweptAll(conns, w, w.entries, front, statuses, now, staleAfter, supply);
      assert SameEntry(s.world.entries, w.entries, key);
      SweptOneAvoids(conns, s.world, key, w.entries[key], status, now, staleAfter, s.rest, pair);
      SweptOneStands(conns, s.world, key, w.entries[key], status, now, staleAfter, s.rest);
      AvoidsBut(w, s.world, SweptOne(conns, s.world, key, w.entries[key], status, now, staleAfter, s.rest).world, pair, key);
    }
  }

  lemma AvoidsBut(w: World, u: World, v: World, pair: Pair, key: Key)
    requires Avoids(w, u, pair) && Avoids(u, v, pair) && key in w.seen
    requires forall k | k in u.seen && k != key :: SameEntry(v.entries, u.entries, k)
    ensures Avoids(w, v, pair)
  {
    forall k | |w.submissions| <= k < |v.submissions|
      ensures v.submissions[k].routing.pair != pair
    {
      if k < |u.submissions| {
        assert v.submissions[k] == u.submissions[k];
      }
    }
    forall k | k in v.entries && k !in w.seen
      ensures PairOf(v.entries[k]) != pair
    {
      assert k in u.seen ==> SameEntry(v.entries, u.entries, k);
    }
  }

  /** A known Thread that is not tracked stays so. */
  lemma {:induction false} UntrackedStay(conns: Connections, w: World, keys: seq<Key>, statuses: map<Key, Observation>,
                                         now: real, staleAfter: real, supply: seq<Answer>, k: Key)
    requires Fresh(w.seen, supply) && w.entries.Keys <= w.seen && Elements(keys) <= w.entries.Keys && NoDup(keys)
    requires k in w.seen && k !in w.entries
    ensures k !in SweptAll(conns, w, w.entries, keys, statuses, now, staleAfter, supply).world.entries
  {
    if |keys| > 0 {
      var front, key := keys[..|keys| - 1], Last(keys);
      FrontOf(keys);
      UntrackedStay(conns, w, front, statuses, now, staleAfter, supply, k);
      EntriesAfterSweep(conns, w, front, statuses, now, staleAfter, supply);
      var s := SweptAll(conns, w, w.entries, front, statuses, now, staleAfter, supply);
      assert SameEntry(s.world.entries, w.entries, key);
      SweptOneStands(conns, s.world, key, w.entries[key], StatusOf(conns, statuses, key), now, staleAfter, s.rest);
    }
  }

  // ---------------------------------------------------------------- whole calls in a row

  /** A whole call, undisturbed: a routed Signal, an answer, a sweep in some order, or an idle sweep. */
  datatype Op =
    | RouteIt(signal: Signal, now: real, staleAfter: real, supply: seq<Answer>)
    | AnswerIt(q: Responding, env: ApprovalInbox.Environment, staleAfter: real, supply: seq<Answer>)
    | SweepIt(order: seq<Key>, statuses: map<Key, Observation>, now: real, staleAfter: real, supply: seq<Answer>)
    | StopIdleOnes(now: real)

  function At(op: Op): real {
    if op.AnswerIt? then op.q.now else op.now
  }

  ghost predicate Possible(w: World, op: Op) {
    match op
    case RouteIt(_, _, _, supply) => Fresh(w.seen, supply)
    case AnswerIt(q, _, _, supply) => Fresh(w.seen + {KeyOf(q.slot)}, supply)
    case SweepIt(order, _, _, _, supply) => NoDup(order) && Elements(order) == w.entries.Keys && Fresh(w.seen, supply)
    case StopIdleOnes(_) => true
  }

  ghost function Done(conns: Connections, w: World, op: Op): World
    requires Possible(w, op)
  {
    match op
    case RouteIt(signal, now, staleAfter, supply) => AllRouted(conns, w, signal, now, staleAfter, supply).world
    case AnswerIt(q, env, staleAfter, supply) => ApprovalInbox.Responded(conns, w, q, env, staleAfter, supply).world
    case SweepIt(order, statuses, now, staleAfter, supply) => SweptAll(conns, w, w.entries, order, statuses, now, staleAfter, supply).world
    case StopIdleOnes(now) => w.(records := L.StopIdle(w.records, conns, now))
  }

  ghost predicate History(conns: Connections, trace: seq<World>, ops: seq<Op>) {
    && |trace| == |ops| + 1
    && forall i | 0 <= i < |ops| :: Possible(trace[i], ops[i]) && trace[i + 1] == Done(conns, trace[i], ops[i])
  }

  // ---------------------------------------------------------------- a Run seen running

  /** The Run is tracked with its pair, claimed at the given time, and nobody else tracked holds it. */
  ghost predicate Watched(w: World, key: Key, pair: Pair, at: real) {
    && w.entries.Keys <= w.seen && key in w.entries && w.entries[key].concurrencyHeld && PairOf(w.entries[key]) == pair
    && pair in w.claims && w.claims[pair] == at
    && forall k | k in w.entries && k != key :: !(w.entries[k].concurrencyHeld && PairOf(w.entries[k]) == pair)
  }

  /** A sweep that sees the Run running. */
  predicate Sights(conns: Connections, op: Op, key: Key) {
    op.SweepIt? && key in op.order && StatusOf(conns, op.statuses, key).Active?
  }

  function LastSight(conns: Connections, ops: seq<Op>, key: Key, at: real): real {
    if |ops| == 0 then at
    else if Sights(conns, Last(ops), key) then At(Last(ops)) else LastSight(conns, ops[..|ops| - 1], key, at)
  }

  /** The Run goes on: no sweep finds it paused or ended, and no answer is given to its own Thread. */
  predicate GoesOn(conns: Connections, op: Op, key: Key) {
    && (op.SweepIt? && key in op.order ==> !Settles(StatusOf(conns, op.statuses, key)))
    && (op.AnswerIt? ==> KeyOf(op.q.slot) != key)
  }

  /** The call comes less than its own `stale_after` after the claim's time. */
  predicate InTime(op: Op, at: real) {
    !op.StopIdleOnes? ==> 0.0 < op.staleAfter && At(op) - at < op.staleAfter
  }

  lemma RouteKeeps(conns: Connections, w: World, signal: Signal, now: real, staleAfter: real, supply: seq<Answer>, key: Key, pair: Pair, at: real)
    requires Watched(w, key, pair, at) && Fresh(w.seen, supply) && now - at < staleAfter
    ensures
      var v := AllRouted(conns, w, signal, now, staleAfter, supply).world;
      Watched(v, key, pair, at) && Avoids(w, v, pair)
  {
    var v := AllRouted(conns, w, signal, now, staleAfter, supply).world;
    LiveClaimsStay(conns, w, signal, now, staleAfter, supply, pair);
    CascadeAvoids(conns, w, signal, now, staleAfter, supply, pair);
    CascadeKeeps(conns, w, signal, now, staleAfter, supply);
    KeptEntries(w, v);
    StillWatched(w, v, key, pair, at);
  }

  lemma StillWatched(w: World, v: World, key: Key, pair: Pair, at: real)
    requires Watched(w, key, pair, at) && Avoids(w, v, pair) && EntriesKept(w, v) && SameClaim(v, w, pair)
    ensures Watched(v, key, pair, at)
  {
    assert SameEntry(v.entries, w.entries, key);
    forall k | k in v.entries && k != key
      ensures !(v.entries[k].concurrencyHeld && PairOf(v.entries[k]) == pair)
    {
      assert k in w.seen ==> SameEntry(v.entries, w.entries, k);
    }
  }

  lemma NotFreed(conns: Connections, w: World, op: Op, key: Key, pair: Pair, at: real)
    requires Watched(w, key, pair, at) && op.SweepIt? && GoesOn(conns, op, key)
    ensures !FreedBy(conns, w.entries, op.order, op.statuses, pair)
    ensures RenewedBy(conns, w.entries, op.order, op.statuses, pair) <==> Sights(conns, op, key)
  {
    if Sights(conns, op, key) {
      assert Renews(w.entries[key], StatusOf(conns, op.statuses, key), pair);
    }
  }

  lemma SweepKeeps(conns: Connections, w: World, op: Op, key: Key, pair: Pair, at: real)
    requires Watched(w, key, pair, at) && op.SweepIt? && Possible(w, op) && GoesOn(conns, op, key) && InTime(op, at)
    ensures
      var v := Done(conns, w, op);
      Watched(v, key, pair, if Sights(conns, op, key) then op.now else at) && Avoids(w, v, pair)
  {
    var v := Done(conns, w, op);
    NotFreed(conns, w, op, key, pair, at);
    ClaimTimesAfterSweep(conns, w, op.order, op.statuses, op.now, op.staleAfter, op.supply, pair);
    SweepAvoids(conns, w, op.order, op.statuses, op.now, op.staleAfter, op.supply, pair);
    EntriesAfterSweep(conns, w, op.order, op.statuses, op.now, op.staleAfter, op.supply);
    assert StandsAs(w.entries, v.entries, key, StatusOf(conns, op.statuses, key), op.now);
    forall k | k in v.entries && k != key
      ensures !(v.entries[k].concurrencyHeld && PairOf(v.entries[k]) == pair)
    {
      if k in w.entries {
        assert StandsAs(w.entries, v.entries, k, StatusOf(conns, op.statuses, k), op.now);
      } else if k in w.seen {
        UntrackedStay(conns, w, op.order, op.statuses, op.now, op.staleAfter, op.supply, k);
      }
    }
  }

  /** The Thread answered gets a new entry or none; the rest of the answer's own doing is out of sight here. */
  predicate OnlyItsThread(w: World, v: World, q: Responding) {
    && v.seen == w.seen + {KeyOf(q.slot)} && v.claims == w.claims && v.submissions == w.submissions
    && (KeyOf(q.slot) in v.entries ==> !v.entries[KeyOf(q.slot)].concurrencyHeld || SameEntry(v.entries, w.entries, KeyOf(q.slot)))
    && v.entries - {KeyOf(q.slot)} == w.entries - {KeyOf(q.slot)}
  }

  lemma TriedOnlyItsThread(w: World, q: Responding, env: ApprovalInbox.Environment, result: ApprovalInbox.SubmissionResult, records: L.Records)
    ensures
      var v := w.(seen := w.seen + {P.Key(q.slot.deployment, q.slot.thread)}, records := records);
      OnlyItsThread(w, ApprovalResults.Tried(v, q, env, result), q)
  {
  }

  lemma FinishedOnlyItsThread(w: World, q: Responding, seen: Seen, run: string, reply: ResumeOutcome, pair: Pair, depth: nat, records: L.Records)
    ensures
      var v := w.(seen := w.seen + {P.Key(q.slot.deployment, q.slot.thread)}, records := records);
      OnlyItsThread(w, ApprovalResults.Finished(v, q, seen, run, reply, pair, depth), q)
  {
  }

  lemma ItsThreadKeeps(w: World, v: World, q: Responding, key: Key, pair: Pair, at: real)
    requires Watched(w, key, pair, at) && OnlyItsThread(w, v, q) && KeyOf(q.slot) != key
    ensures Watched(v, key, pair, at)
  {
    assert forall k | k != KeyOf(q.slot) :: (k in v.entries <==> k in v.entries - {KeyOf(q.slot)}) && (k in w.entries <==> k in w.entries - {KeyOf(q.slot)});
    assert forall k | k in v.entries && k != KeyOf(q.slot) :: v.entries[k] == (v.entries - {KeyOf(q.slot)})[k] == w.entries[k];
    assert v.entries[key] == (v.entries - {KeyOf(q.slot)})[key];
  }

  lemma AnswerKeeps(conns: Connections, w: World, op: Op, key: Key, pair: Pair, at: real)
    requires Watched(w, key, pair, at) && op.AnswerIt? && Possible(w, op) && GoesOn(conns, op, key) && InTime(op, at)
    ensures
      var v := Done(conns, w, op);
      Watched(v, key, pair, at) && w.submissions <= v.submissions && NoneFor(v.submissions, |w.submissions|, pair)
  {
    var q, env := op.q, op.env;
    var s := ApprovalInbox.Responded(conns, w, q, env, op.staleAfter, op.supply);
    var records := ApprovalResults.Started(conns, w, q, env.probe);
    if s.result.ResumedRun? {
      var own, depth := ApprovalResults.ResumedLeaves(conns, w, q, env, op.staleAfter, op.supply);
      var v := w.(seen := w.seen + {P.Key(q.slot.deployment, q.slot.thread)}, records := records);
      var seen := ApprovalInbox.SeenOf(env.state.value);
      var u := ApprovalResults.Finished(v, q, seen, env.resumed.run, env.resumed.reply, own, depth);
      FinishedOnlyItsThread(w, q, seen, env.resumed.run, env.resumed.reply, own, depth, records);
      ItsThreadKeeps(w, u, q, key, pair, at);
      if ApprovalResults.Reported(own, env.resumed.reply) && |u.finished| > 0 {
        RouteKeeps(conns, u, Signal("run.finished:" + Last(u.finished).runId, Some(Last(u.finished))), q.now, op.staleAfter, op.supply, key, pair, at);
      }
    } else {
      ApprovalResults.UnresumedLeaves(conns, w, q, env, op.staleAfter, op.supply);
      TriedOnlyItsThread(w, q, env, s.result, records);
      var v := w.(seen := w.seen + {P.Key(q.slot.deployment, q.slot.thread)}, records := records);
      ItsThreadKeeps(w, ApprovalResults.Tried(v, q, env, s.result), q, key, pair, at);
    }
  }

  lemma OneKeeps(conns: Connections, w: World, op: Op, key: Key, pair: Pair, at: real)
    requires Watched(w, key, pair, at) && Possible(w, op) && GoesOn(conns, op, key) && InTime(op, at)
    ensures
      var v := Done(conns, w, op);
      && Watched(v, key, pair, if Sights(conns, op, key) then At(op) else at)
      && w.submissions <= v.submissions && NoneFor(v.submissions, |w.submissions|, pair)
  {
    match op
    case RouteIt(signal, now, staleAfter, supply) => RouteKeeps(conns, w, signal, now, staleAfter, supply, key, pair, at);
    case AnswerIt(_, _, _, _) => AnswerKeeps(conns, w, op, key, pair, at);
    case SweepIt(_, _, _, _, _) => SweepKeeps(conns, w, op, key, pair, at);
    case StopIdleOnes(_) =>
  }

  /** What the theorem asks of a history: the Run goes on, and every call comes in time of its last sight. */
  ghost predicate InSight(conns: Connections, ops: seq<Op>, key: Key, at: real) {
    forall i | 0 <= i < |ops| :: GoesOn(conns, ops[i], key) && InTime(ops[i], LastSight(conns, ops[..i], key, at))
  }

  lemma InSightBefore(conns: Connections, ops: seq<Op>, key: Key, at: real)
    requires |ops| > 0 && InSight(conns, ops, key, at)
    ensures InSight(conns, ops[..|ops| - 1], key, at)
  {
    var front := ops[..|ops| - 1];
    forall i | 0 <= i < |front|
      ensures GoesOn(conns, front[i], key) && InTime(front[i], LastSight(conns, front[..i], key, at))
    {
      assert front[i] == ops[i] && front[..i] == ops[..i];
    }
  }

  lemma HistoryBefore(conns: Connections, trace: seq<World>, ops: seq<Op>)
    requires |ops| > 0 && History(conns, trace, ops)
    ensures History(conns, trace[..|trace| - 1], ops[..|ops| - 1])
  {
    var t, o := trace[..|trace| - 1], ops[..|ops| - 1];
    forall i | 0 <= i < |o|
      ensures Possible(t[i], o[i]) && t[i + 1] == Done(conns, t[i], o[i])
    {
      assert t[i] == trace[i] && t[i + 1] == trace[i + 1] && o[i] == ops[i];
    }
  }

  /**
   Over any sequence of routed Signals, answers, sweeps and idle sweeps: while each comes less than its
   own `stale_after` after the last sweep that saw the Run running, the Run keeps its pair, claimed at
   that time, and nothing is submitted for it.
   */
  lemma {:induction false} HeldWhileSeen(conns: Connections, trace: seq<World>, ops: seq<Op>, key: Key, pair: Pair, at: real)
    requires History(conns, trace, ops) && Watched(trace[0], key, pair, at) && InSight(conns, ops, key, at)
    ensures Watched(Last(trace), key, pair, LastSight(conns, ops, key, at))
    ensures trace[0].submissions <= Last(trace).submissions && NoneFor(Last(trace).submissions, |trace[0].submissions|, pair)
  {
    if |ops| > 0 {
      var n := |ops| - 1;
      HistoryBefore(conns, trace, ops);
      InSightBefore(conns, ops, key, at);
      HeldWhileSeen(conns, trace[..n + 1], ops[..n], key, pair, at);
      assert Last(trace[..n + 1]) == trace[n];
      OneKeeps(conns, trace[n], ops[n], key, pair, LastSight(conns, ops[..n], key, at));
    }
  }

  /** So every Signal mapped to the pair in that time is skipped, and leaves everything as it was. */
  lemma RivalsAreSkipped(conns: Connections, trace: seq<World>, ops: seq<Op>, key: Key, pair: Pair, at: real,
                         signal: Signal, now: real, staleAfter: real, supply: seq<Answer>)
    requires History(conns, trace, ops) && Watched(trace[0], key, pair, at) && InSight(conns, ops, key, at)
    requires now - LastSight(conns, ops, key, at) < staleAfter
    requires Mappable(conns, signal, supply) && supply[0].target.value.1 == pair
    ensures AllRouted(conns, Last(trace), signal, now, staleAfter, supply) == Outcome(Last(trace), ConcurrencySkipped, supply[1..])
  {
    HeldWhileSeen(conns, trace, ops, key, pair, at);
    ResponseTells(conns, Last(trace), signal, now, staleAfter, supply);
    var r := RefusedLeaves(conns, Last(trace), signal, now, staleAfter, supply);
  }
}

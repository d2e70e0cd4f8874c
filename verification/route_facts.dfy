/** What one routed Signal and its cascade leave behind (src/cord_runtime/router.py). */
module RouteFacts {
  import opened Basics
  import opened Protocol
  import opened Routes
  import C = Concurrency
  import K = RunContinuity
  import L = DeploymentLifecycle
  import P = PendingCompletions

  // ---------------------------------------------------------------- one level

  /** Nothing was submitted. */
  ghost predicate Quiet(w: World, v: World) {
    v.submissions == w.submissions && v.finished == w.finished && v.seen == w.seen && v.entries == w.entries && v.threads == w.threads
  }

  /** One Run was submitted and its result recorded. */
  ghost predicate Runs(w: World, v: World, r: Routing, execution: Execution) {
    && v.submissions == w.submissions + [Submission(r, |w.claimCalls|)]
    && (execution.Fails? ==> v.seen == w.seen && v.entries == w.entries && v.threads == w.threads)
    && (execution.Returns? ==> TakesIn(w, v, r, P.Key(r.alias, execution.thread), execution.run, execution.outcome))
  }

  /** And its success, if it was one, reported. */
  ghost predicate Submits(w: World, v: World, r: Routing, execution: Execution, finish: Option<Finish>) {
    && Runs(w, v, r, execution) && finish == Report(r, execution)
    && v.finished == w.finished + (if finish.Some? then [finish.value] else [])
  }

  ghost predicate TakesIn(w: World, v: World, r: Routing, key: Key, run: string, outcome: ExecuteOutcome) {
    && v.seen == w.seen + {key} && v.threads == K.Recorded(w.threads, key, run)
    && (if outcome.StillRunning? || outcome.Interrupted? then
          var held := outcome.StillRunning?;
          v.entries == w.entries[key := P.Entry(run, r.pair.assistant, r.pair.subject, r.depth, held, held, r.now)]
        else v.entries == w.entries)
  }

  /** A try block: either quiet, or one submission whose finish is still to be reported. */
  ghost predicate Tries(w: World, t: Tried, r: Routing, execution: Execution) {
    && (t.retain <==> t.response == Routed(StillRunning, None))
    && (|| (Quiet(w, t.world) && t.finish.None? && !t.retain && Refuses(t.response))
        || (Runs(w, t.world, r, execution) && t.world.finished == w.finished && Ends(t, r, execution)))
  }

  predicate Ends(t: Tried, r: Routing, execution: Execution) {
    && t.finish == Report(r, execution) && (t.retain <==> execution.Returns? && execution.outcome.StillRunning?)
    && t.response == if execution.Fails? then ExecutionFailed else Routed(execution.outcome, None)
  }

  /** A response that tells of no submission. */
  predicate Refuses(response: Response) {
    response.DeploymentUnavailable? || response.Duplicate?
  }

  lemma ReceivedTakes(w: World, r: Routing, key: Key, run: string, outcome: ExecuteOutcome)
    ensures TakesIn(w, Received(w, r, key, run, outcome), r, key, run, outcome)
    ensures
      var v := Received(w, r, key, run, outcome);
      v.submissions == w.submissions && v.finished == w.finished && v.claims == w.claims && v.records == w.records
  {
  }

  /** A submission with any claim number. */
  ghost predicate RunsAs(w: World, t: Tried, r: Routing, claim: nat, execution: Execution) {
    && t.world.submissions == w.submissions + [Submission(r, claim)] && t.world.finished == w.finished && Ends(t, r, execution)
    && (t.retain <==> t.response == Routed(StillRunning, None)) && t.world.claims == w.claims && t.world.records == w.records
    && (execution.Fails? ==> t.world.seen == w.seen && t.world.entries == w.entries && t.world.threads == w.threads)
    && (execution.Returns? ==> TakesIn(w, t.world, r, P.Key(r.alias, execution.thread), execution.run, execution.outcome))
  }

  lemma RanRuns(w: World, r: Routing, claim: nat, execution: Execution)
    ensures RunsAs(w, Ran(w, r, claim, execution), r, claim, execution)
  {
    if execution.Returns? {
      var key := P.Key(r.alias, execution.thread);
      ReceivedTakes(Sent(w, r, claim), r, key, execution.run, execution.outcome);
      SentTakes(w, r, claim, Received(Sent(w, r, claim), r, key, execution.run, execution.outcome), key, execution.run, execution.outcome);
    }
  }

  lemma SentTakes(w: World, r: Routing, claim: nat, v: World, key: Key, run: string, outcome: ExecuteOutcome)
    requires TakesIn(Sent(w, r, claim), v, r, key, run, outcome)
    ensures TakesIn(w, v, r, key, run, outcome)
  {
  }

  lemma AdmittingTries(w: World, r: Routing, execution: Execution)
    ensures Tries(w, Admitting(w, r, execution), r, execution)
    ensures Admitting(w, r, execution).world.claims == w.claims && Admitting(w, r, execution).world.records == w.records
  {
    RanRuns(SignalClaimed(w, r), r, |w.claimCalls|, execution);
  }

  lemma AttemptedTries(conns: Connections, w: World, r: Routing, answer: Answer)
    ensures Tries(w, Attempted(conns, w, r, answer), r, answer.execution)
    ensures Attempted(conns, w, r, answer).world.claims == w.claims
    ensures Attempted(conns, w, r, answer).world.records == L.EnsureStarted(w.records, r.alias, Conn(conns, r.alias), r.now, answer.probe).0
  {
    AdmittingTries(w.(records := L.EnsureStarted(w.records, r.alias, Conn(conns, r.alias), r.now, answer.probe).0), r, answer.execution);
  }

  lemma ReleasedDoes(conns: Connections, w: World, r: Routing, t: Tried, execution: Execution)
    requires Tries(w, t, r, execution)
    ensures
      var v := Released(conns, r, t);
      && ((Quiet(w, v) && t.finish.None?) || Submits(w, v, r, execution, t.finish))
      && (t.retain ==> Submits(w, v, r, execution, t.finish) && execution.Returns? && execution.outcome.StillRunning?)
  {
    var v := Released(conns, r, t);
    assert v.seen == t.world.seen && v.entries == t.world.entries && v.threads == t.world.threads && v.submissions == t.world.submissions;
    assert t.finish.None? ==> v.finished == t.world.finished + [];
  }

  /** One level either submits nothing or exactly the Run its rule names. */
  lemma ClaimingDoes(conns: Connections, w: World, r: Routing, answer: Answer)
    ensures
      var l := Claiming(conns, w, r, answer);
      && ((Quiet(w, l.world) && l.finish.None?) || Submits(w, l.world, r, answer.execution, l.finish))
      && (l.response == Routed(StillRunning, None) ==>
            Submits(w, l.world, r, answer.execution, l.finish) && answer.execution.Returns? && answer.execution.outcome.StillRunning?)
  {
    var held := w.(claims := w.claims[r.pair := r.now]);
    AttemptedTries(conns, held, r, answer);
    ReleasedDoes(conns, held, r, Attempted(conns, held, r, answer), answer.execution);
  }

  /** The claims of a level: a live pair stops it, and only a Run still running keeps the pair. */
  lemma ClaimingClaims(conns: Connections, w: World, r: Routing, answer: Answer)
    ensures
      var l := Claiming(conns, w, r, answer);
      if C.Live(w.claims, r.pair, r.now, r.staleAfter) then l.world == w
      else if l.response == Routed(StillRunning, None) then l.world.claims == w.claims[r.pair := r.now]
      else l.world.claims == w.claims - {r.pair}
  {
    AttemptedTries(conns, w.(claims := w.claims[r.pair := r.now]), r, answer);
    assert w.claims[r.pair := r.now] - {r.pair} == w.claims - {r.pair};
  }

  /** A level that got its Deployment and leaves no Run behind hands the activity back: the count is what the start found. */
  lemma ActivityReturned(conns: Connections, w: World, r: Routing, answer: Answer)
    requires !C.Live(w.claims, r.pair, r.now, r.staleAfter) && Conn(conns, r.alias).Managed()
    requires L.EnsureStarted(w.records, r.alias, Conn(conns, r.alias), r.now, answer.probe).1.IsRunning?
    requires Claiming(conns, w, r, answer).response != Routed(StillRunning, None)
    ensures
      var v := Claiming(conns, w, r, answer).world;
      && r.alias in v.records && v.records - {r.alias} == w.records - {r.alias}
      && v.records[r.alias].activeRuns
         == (if r.alias in w.records && w.records[r.alias].status.Running? && answer.probe.alive then w.records[r.alias].activeRuns else 0)
  {
    AttemptedTries(conns, w.(claims := w.claims[r.pair := r.now]), r, answer);
    L.StartThenRelease(w.records, r.alias, Conn(conns, r.alias), r.now, r.now, answer.probe);
  }

  lemma LevelledDoes(conns: Connections, w: World, signal: Signal, now: real, staleAfter: real, answer: Answer)
    ensures
      var l := Levelled(conns, w, signal, now, staleAfter, answer);
      || (Quiet(w, l.world) && l.finish.None?)
      || (answer.target.Some? && Submits(w, l.world, RoutingOf(signal, answer.target.value, now, staleAfter), answer.execution, l.finish))
  {
    if answer.target.Some? && Mapped(conns, answer.target.value) {
      ClaimingDoes(conns, w, RoutingOf(signal, answer.target.value, now, staleAfter), answer);
    }
  }

  /** A Run was submitted exactly when the response says so; the depth bound alone stops a finish. */
  lemma SubmittedWhen(conns: Connections, w: World, signal: Signal, now: real, staleAfter: real, supply: seq<Answer>)
    ensures
      var o := AllRouted(conns, w, signal, now, staleAfter, supply);
      && (o.response.DepthExceeded? <==> signal.Depth() > MAX_CASCADE_DEPTH)
      && (|o.world.submissions| > |w.submissions| <==> o.response.ExecutionFailed? || o.response.Routed?)
      && (o.response.Routed? ==> (o.response.cascade.Some? <==> o.response.outcome.Succeeded?))
  {
    if signal.Depth() <= MAX_CASCADE_DEPTH && |supply| > 0 && supply[0].target.Some? && Mapped(conns, supply[0].target.value) {
      var l := Levelled(conns, w, signal, now, staleAfter, supply[0]);
      ClaimingResponds(conns, w, RoutingOf(signal, supply[0].target.value, now, staleAfter), supply[0]);
      if l.finish.Some? {
        CascadeTrail(conns, l.world, Finished(l.finish.value), now, staleAfter, supply[1..]);
      }
    }
  }

  lemma ClaimingResponds(conns: Connections, w: World, r: Routing, answer: Answer)
    ensures
      var l := Claiming(conns, w, r, answer);
      && (|l.world.submissions| > |w.submissions| <==> l.response.ExecutionFailed? || l.response.Routed?)
      && (l.finish.Some? <==> l.response.Routed? && l.response.outcome.Succeeded?)
      && (l.response.Routed? ==> l.response.cascade.None?) && !l.response.DepthExceeded?
  {
    if !C.Live(w.claims, r.pair, r.now, r.staleAfter) {
      var held := w.(claims := w.claims[r.pair := r.now]);
      AttemptedTries(conns, held, r, answer);
      ReleasedDoes(conns, held, r, Attempted(conns, held, r, answer), answer.execution);
    }
  }

  // ---------------------------------------------------------------- fresh Threads

  /** The Threads seen since are those this execution opened. */
  ghost predicate OpenedBy(seen: set<Key>, now: set<Key>, execution: Execution) {
    forall key | key in now && key !in seen :: execution.Returns? && key.thread == execution.thread
  }

  lemma LevelOpens(conns: Connections, w: World, signal: Signal, now: real, staleAfter: real, answer: Answer)
    ensures OpenedBy(w.seen, Levelled(conns, w, signal, now, staleAfter, answer).world.seen, answer.execution)
    ensures w.seen <= Levelled(conns, w, signal, now, staleAfter, answer).world.seen
  {
    LevelledDoes(conns, w, signal, now, staleAfter, answer);
  }

  lemma FreshRest(seen: set<Key>, supply: seq<Answer>, now: set<Key>)
    requires |supply| > 0 && Fresh(seen, supply) && OpenedBy(seen, now, supply[0].execution)
    ensures Fresh(now, supply[1..])
  {
    forall i | 0 <= i < |supply[1..]|
      ensures FreshOne(now, supply[1..][i].execution)
    {
      assert supply[1..][i] == supply[i + 1];
    }
  }

  // ---------------------------------------------------------------- the trail of a cascade

  function SourceOf(signal: Signal): Option<Key> {
    if signal.finish.Some? then Some(signal.finish.value.key) else None
  }

  /** A submission made for a signal: named and caused by it, at its depth, within the bound. */
  predicate MadeFor(r: Routing, signal: Signal) {
    && r.signalId == signal.id && r.causedBy == signal.Cause() && r.source == SourceOf(signal)
    && r.depth == signal.Depth() <= MAX_CASCADE_DEPTH
  }

  predicate ReportsOn(f: Finish, r: Routing) {
    f.key.deployment == r.alias && f.pair == r.pair && f.depth == r.depth
  }

  /** Submissions in a row: the first for the signal, each next one for the report on the Run before it. */
  ghost predicate Follows(made: seq<Submission>, ended: seq<Finish>, signal: Signal) {
    if |made| == 0 then ended == []
    else
      && MadeFor(made[0].routing, signal)
      && if |ended| == 0 then |made| == 1
         else ReportsOn(ended[0], made[0].routing) && Follows(made[1..], ended[1..], Finished(ended[0]))
  }

  ghost predicate Trail(w: World, v: World, signal: Signal) {
    && w.submissions <= v.submissions && w.finished <= v.finished
    && Follows(v.submissions[|w.submissions|..], v.finished[|w.finished|..], signal)
  }

  lemma LevelTrail(conns: Connections, w: World, signal: Signal, now: real, staleAfter: real, answer: Answer)
    requires signal.Depth() <= MAX_CASCADE_DEPTH
    ensures
      var l := Levelled(conns, w, signal, now, staleAfter, answer);
      if l.finish.Some? then
        && l.world.finished == w.finished + [l.finish.value]
        && exists s :: l.world.submissions == w.submissions + [s] && MadeFor(s.routing, signal) && ReportsOn(l.finish.value, s.routing)
      else Trail(w, l.world, signal)
  {
    LevelledDoes(conns, w, signal, now, staleAfter, answer);
    var l := Levelled(conns, w, signal, now, staleAfter, answer);
    if l.finish.Some? {
      var s := Submission(RoutingOf(signal, answer.target.value, now, staleAfter), |w.claimCalls|);
      assert l.world.submissions == w.submissions + [s];
    } else if l.world.submissions != w.submissions {
      var s := Submission(RoutingOf(signal, answer.target.value, now, staleAfter), |w.claimCalls|);
      assert l.world.submissions[|w.submissions|..] == [s] && l.world.finished[|w.finished|..] == [];
    } else {
      assert l.world.submissions[|w.submissions|..] == [] && l.world.finished[|w.finished|..] == [];
    }
  }

  lemma TrailOn(w: World, u: World, v: World, signal: Signal, finish: Finish, s: Submission)
    requires u.submissions == w.submissions + [s] && u.finished == w.finished + [finish]
    requires MadeFor(s.routing, signal) && ReportsOn(finish, s.routing) && Trail(u, v, Finished(finish))
    ensures Trail(w, v, signal)
  {
    var made, ended := v.submissions[|w.submissions|..], v.finished[|w.finished|..];
    assert made[0] == s && made[1..] == v.submissions[|u.submissions|..];
    assert ended[0] == finish && ended[1..] == v.finished[|u.finished|..];
  }

  /** What a cascade submits is one such row. */
  lemma {:induction false} CascadeTrail(conns: Connections, w: World, signal: Signal, now: real, staleAfter: real, supply: seq<Answer>)
    ensures Trail(w, AllRouted(conns, w, signal, now, staleAfter, supply).world, signal)
    decreases Room(signal)
  {
    if signal.Depth() <= MAX_CASCADE_DEPTH && |supply| > 0 {
      var l := Levelled(conns, w, signal, now, staleAfter, supply[0]);
      LevelTrail(conns, w, signal, now, staleAfter, supply[0]);
      if l.finish.Some? {
        CascadeTrail(conns, l.world, Finished(l.finish.value), now, staleAfter, supply[1..]);
        var v := AllRouted(conns, l.world, Finished(l.finish.value), now, staleAfter, supply[1..]).world;
        var s :| l.world.submissions == w.submissions + [s] && MadeFor(s.routing, signal) && ReportsOn(l.finish.value, s.routing);
        TrailOn(w, l.world, v, signal, l.finish.value, s);
      }
    }
  }

  predicate Caused(made: seq<Submission>, ended: seq<Finish>, k: nat) {
    && 0 < k < |made| && k <= |ended|
    && ReportsOn(ended[k - 1], made[k - 1].routing) && MadeFor(made[k].routing, Finished(ended[k - 1]))
    && made[k].routing.causedBy == Some(ended[k - 1].runId) && made[k].routing.depth == made[k - 1].routing.depth + 1
  }

  /**
   So every submission after the first is caused by the Run the one before it finished, one level
   deeper, and one Signal submits no more Runs than the depths left to it.
   */
  lemma {:induction false} EachIsCaused(made: seq<Submission>, ended: seq<Finish>, signal: Signal)
    requires Follows(made, ended, signal)
    ensures |made| <= Room(signal) && |ended| <= |made| <= |ended| + 1
    ensures forall k | 0 < k < |made| :: Caused(made, ended, k)
  {
    if |made| > 0 && |ended| > 0 {
      EachIsCaused(made[1..], ended[1..], Finished(ended[0]));
      forall k | 0 < k < |made|
        ensures Caused(made, ended, k)
      {
        if k == 1 {
          assert made[1] == made[1..][0];
        } else {
          assert Caused(made[1..], ended[1..], k - 1);
          assert made[k] == made[1..][k - 1] && made[k - 1] == made[1..][k - 2] && ended[k - 1] == ended[1..][k - 2];
        }
      }
    }
  }

  /** A finish on record, and the cascade it starts. */
  ghost predicate ReportedAndRouted(w: World, v: World, finish: Finish) {
    && w.submissions <= v.submissions && w.finished + [finish] <= v.finished
    && Follows(v.submissions[|w.submissions|..], v.finished[|w.finished| + 1..], Finished(finish))
  }

  // ---------------------------------------------------------------- other Threads

  predicate SameAt(w: World, v: World, key: Key) {
    && (key in v.entries <==> key in w.entries) && (key in w.entries ==> v.entries[key] == w.entries[key])
    && (key in v.threads <==> key in w.threads) && (key in w.threads ==> v.threads[key] == w.threads[key])
  }

  /** Threads known before keep their record and their entry. */
  ghost predicate OldKept(w: World, v: World) {
    w.seen <= v.seen && forall key | key in w.seen :: SameAt(w, v, key)
  }

  lemma LevelKeeps(conns: Connections, w: World, signal: Signal, now: real, staleAfter: real, answer: Answer)
    requires FreshOne(w.seen, answer.execution)
    ensures OldKept(w, Levelled(conns, w, signal, now, staleAfter, answer).world)
  {
    LevelledDoes(conns, w, signal, now, staleAfter, answer);
  }

  /** A cascade touches only the Threads it opens. */
  lemma {:induction false} CascadeKeeps(conns: Connections, w: World, signal: Signal, now: real, staleAfter: real, supply: seq<Answer>)
    requires Fresh(w.seen, supply)
    ensures
      var o := AllRouted(conns, w, signal, now, staleAfter, supply);
      OldKept(w, o.world) && Fresh(o.world.seen, o.rest)
    decreases Room(signal)
  {
    if signal.Depth() <= MAX_CASCADE_DEPTH && |supply| > 0 {
      var l := Levelled(conns, w, signal, now, staleAfter, supply[0]);
      LevelKeeps(conns, w, signal, now, staleAfter, supply[0]);
      LevelOpens(conns, w, signal, now, staleAfter, supply[0]);
      FreshRest(w.seen, supply, l.world.seen);
      if l.finish.Some? {
        CascadeKeeps(conns, l.world, Finished(l.finish.value), now, staleAfter, supply[1..]);
        var v := AllRouted(conns, l.world, Finished(l.finish.value), now, staleAfter, supply[1..]).world;
        forall key | key in w.seen
          ensures SameAt(w, v, key)
        {
          assert SameAt(w, l.world, key) && SameAt(l.world, v, key);
        }
      }
    }
  }

  /** A finish names the logical Run of its Thread. */
  predicate NamesRun(threads: K.Records, f: Finish) {
    f.key in threads && threads[f.key].runId == f.runId
  }

  lemma LevelNames(conns: Connections, w: World, signal: Signal, now: real, staleAfter: real, answer: Answer)
    requires FreshOne(w.seen, answer.execution) && w.threads.Keys <= w.seen
    ensures
      var l := Levelled(conns, w, signal, now, staleAfter, answer);
      && l.world.threads.Keys <= l.world.seen
      && (l.finish.Some? ==> NamesRun(l.world.threads, l.finish.value) && l.world.finished == w.finished + [l.finish.value])
  {
    LevelledDoes(conns, w, signal, now, staleAfter, answer);
  }

  ghost predicate NewNamed(v: World, from: nat) {
    from <= |v.finished| && forall k | from <= k < |v.finished| :: NamesRun(v.threads, v.finished[k])
  }

  lemma NamedOn(u: World, v: World, finish: Finish, from: nat)
    requires |u.finished| == from + 1 && u.finished <= v.finished && u.finished[from] == finish && NewNamed(v, from + 1)
    requires NamesRun(u.threads, finish) && u.threads.Keys <= u.seen && OldKept(u, v)
    ensures NewNamed(v, from)
  {
    assert SameAt(u, v, finish.key);
    assert v.finished[from] == finish;
  }

  /** What a cascade reports is the logical Run of each Thread it opened. */
  lemma {:induction false} FinishesNameRuns(conns: Connections, w: World, signal: Signal, now: real, staleAfter: real, supply: seq<Answer>)
    requires Fresh(w.seen, supply) && w.threads.Keys <= w.seen
    ensures NewNamed(AllRouted(conns, w, signal, now, staleAfter, supply).world, |w.finished|)
    decreases Room(signal)
  {
    if signal.Depth() <= MAX_CASCADE_DEPTH && |supply| > 0 {
      var l := Levelled(conns, w, signal, now, staleAfter, supply[0]);
      LevelNames(conns, w, signal, now, staleAfter, supply[0]);
      LevelOpens(conns, w, signal, now, staleAfter, supply[0]);
      FreshRest(w.seen, supply, l.world.seen);
      if l.finish.Some? {
        var v := AllRouted(conns, l.world, Finished(l.finish.value), now, staleAfter, supply[1..]).world;
        FinishesNameRuns(conns, l.world, Finished(l.finish.value), now, staleAfter, supply[1..]);
        CascadeKeeps(conns, l.world, Finished(l.finish.value), now, staleAfter, supply[1..]);
        CascadeTrail(conns, l.world, Finished(l.finish.value), now, staleAfter, supply[1..]);
        NamedOn(l.world, v, l.finish.value, |w.finished|);
      } else {
        NothingReported(conns, w, signal, now, staleAfter, supply[0]);
      }
    }
  }

  lemma NothingReported(conns: Connections, w: World, signal: Signal, now: real, staleAfter: real, answer: Answer)
    ensures
      var l := Levelled(conns, w, signal, now, staleAfter, answer);
      l.finish.None? ==> l.world.finished == w.finished
  {
    LevelledDoes(conns, w, signal, now, staleAfter, answer);
  }

  lemma LevelReportsNew(conns: Connections, w: World, signal: Signal, now: real, staleAfter: real, answer: Answer)
    requires FreshOne(w.seen, answer.execution)
    ensures
      var l := Levelled(conns, w, signal, now, staleAfter, answer);
      && (l.finish.Some? ==> l.finish.value.key !in w.seen && l.world.finished == w.finished + [l.finish.value])
      && (l.finish.None? ==> l.world.finished == w.finished)
      && (w.entries.Keys <= w.seen ==> l.world.entries.Keys <= l.world.seen)
  {
    LevelledDoes(conns, w, signal, now, staleAfter, answer);
  }

  ghost predicate ReportsNew(seen: set<Key>, from: nat, finished: seq<Finish>) {
    from <= |finished| && forall k | from <= k < |finished| :: finished[k].key !in seen
  }

  /** What a cascade reports and tracks is on Threads of its own. */
  lemma {:induction false} CascadeReportsNew(conns: Connections, w: World, signal: Signal, now: real, staleAfter: real, supply: seq<Answer>)
    requires Fresh(w.seen, supply)
    ensures
      var v := AllRouted(conns, w, signal, now, staleAfter, supply).world;
      ReportsNew(w.seen, |w.finished|, v.finished) && (w.entries.Keys <= w.seen ==> v.entries.Keys <= v.seen)
    decreases Room(signal)
  {
    if signal.Depth() <= MAX_CASCADE_DEPTH && |supply| > 0 {
      var l := Levelled(conns, w, signal, now, staleAfter, supply[0]);
      LevelReportsNew(conns, w, signal, now, staleAfter, supply[0]);
      LevelOpens(conns, w, signal, now, staleAfter, supply[0]);
      FreshRest(w.seen, supply, l.world.seen);
      if l.finish.Some? {
        CascadeReportsNew(conns, l.world, Finished(l.finish.value), now, staleAfter, supply[1..]);
        CascadeTrail(conns, l.world, Finished(l.finish.value), now, staleAfter, supply[1..]);
        var v := AllRouted(conns, l.world, Finished(l.finish.value), now, staleAfter, supply[1..]).world;
        assert v.finished[|w.finished|] == l.world.finished[|w.finished|] == l.finish.value;
      }
    }
  }

  // ---------------------------------------------------------------- claims

  /** A tracked Run that holds a pair. */
  predicate Holds(entry: P.Entry, pair: Pair) {
    entry.concurrencyHeld && entry.deploymentHeld && PairOf(entry) == pair
  }

  /** A claim that was there, or one held by a Run tracked since. */
  ghost predicate Accounted(w: World, v: World, pair: Pair) {
    || (pair in w.claims && pair in v.claims && v.claims[pair] == w.claims[pair])
    || exists key | key in v.entries && key !in w.seen :: Holds(v.entries[key], pair)
  }

  ghost predicate AllAccounted(w: World, v: World) {
    forall pair | pair in v.claims :: Accounted(w, v, pair)
  }

  lemma LevelAccounts(conns: Connections, w: World, r: Routing, answer: Answer)
    requires FreshOne(w.seen, answer.execution)
    ensures AllAccounted(w, Claiming(conns, w, r, answer).world)
    ensures Claiming(conns, w, r, answer).finish.Some? ==> Claiming(conns, w, r, answer).world.claims == w.claims - {r.pair}
  {
    ClaimingClaims(conns, w, r, answer);
    ClaimingDoes(conns, w, r, answer);
    var l := Claiming(conns, w, r, answer);
    if l.response == Routed(StillRunning, None) {
      var key := P.Key(r.alias, answer.execution.thread);
      assert key in l.world.entries && Holds(l.world.entries[key], r.pair);
    }
  }

  lemma AccountedOn(w: World, u: World, v: World, pair: Pair)
    requires w.seen <= u.seen && AllAccounted(u, v) && u.claims == w.claims - {pair}
    ensures AllAccounted(w, v)
  {
    forall p | p in v.claims
      ensures Accounted(w, v, p)
    {
      assert Accounted(u, v, p);
    }
  }

  /** No pair leaks: whatever a cascade leaves claimed was claimed before, or is held by a tracked Run it started. */
  lemma {:induction false} NoPairLeaks(conns: Connections, w: World, signal: Signal, now: real, staleAfter: real, supply: seq<Answer>)
    requires Fresh(w.seen, supply)
    ensures AllAccounted(w, AllRouted(conns, w, signal, now, staleAfter, supply).world)
    decreases Room(signal)
  {
    if signal.Depth() <= MAX_CASCADE_DEPTH && |supply| > 0 && supply[0].target.Some? && Mapped(conns, supply[0].target.value) {
      var r := RoutingOf(signal, supply[0].target.value, now, staleAfter);
      var l := Levelled(conns, w, signal, now, staleAfter, supply[0]);
      LevelAccounts(conns, w, r, supply[0]);
      LevelOpens(conns, w, signal, now, staleAfter, supply[0]);
      FreshRest(w.seen, supply, l.world.seen);
      if l.finish.Some? {
        NoPairLeaks(conns, l.world, Finished(l.finish.value), now, staleAfter, supply[1..]);
        AccountedOn(w, l.world, AllRouted(conns, l.world, Finished(l.finish.value), now, staleAfter, supply[1..]).world, r.pair);
      }
    }
  }

  lemma LevelSpares(conns: Connections, w: World, signal: Signal, now: real, staleAfter: real, answer: Answer, pair: Pair)
    requires C.Live(w.claims, pair, now, staleAfter)
    ensures
      var l := Levelled(conns, w, signal, now, staleAfter, answer);
      pair in l.world.claims && l.world.claims[pair] == w.claims[pair]
  {
    if answer.target.Some? && Mapped(conns, answer.target.value) {
      ClaimingClaims(conns, w, RoutingOf(signal, answer.target.value, now, staleAfter), answer);
    }
  }

  /** And a live claim of another Run is left as it was. */
  lemma {:induction false} LiveClaimsStay(conns: Connections, w: World, signal: Signal, now: real, staleAfter: real, supply: seq<Answer>, pair: Pair)
    requires C.Live(w.claims, pair, now, staleAfter)
    ensures
      var v := AllRouted(conns, w, signal, now, staleAfter, supply).world;
      pair in v.claims && v.claims[pair] == w.claims[pair]
    decreases Room(signal)
  {
    if signal.Depth() <= MAX_CASCADE_DEPTH && |supply| > 0 {
      var l := Levelled(conns, w, signal, now, staleAfter, supply[0]);
      LevelSpares(conns, w, signal, now, staleAfter, supply[0], pair);
      if l.finish.Some? {
        LiveClaimsStay(conns, l.world, Finished(l.finish.value), now, staleAfter, supply[1..], pair);
      }
    }
  }
}

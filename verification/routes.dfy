/**
 What routing one Signal, and sweeping the tracked Runs, do to the stores when nothing else
 interferes: the router's calls as functions of the world they find (src/cord_runtime/router.py).
 */
module Routes {
  import opened Basics
  import opened Protocol
  import C = Concurrency
  import D = SignalDedupe
  import K = RunContinuity
  import L = DeploymentLifecycle
  import P = PendingCompletions

  /** A Signal's identity, and for `run.finished` what its payload carries. */
  datatype Signal = Signal(id: string, finish: Option<Finish>) {
    function Depth(): nat {
      if finish.Some? then finish.value.depth + 1 else 0
    }

    function Cause(): Option<string> {
      if finish.Some? then Some(finish.value.runId) else None
    }
  }

  function Finished(f: Finish): Signal {
    Signal(FinishedId(f.runId), Some(f))
  }

  datatype Execution = Fails | Returns(thread: string, run: string, outcome: ExecuteOutcome)

  /** What rules, Deployments and the backend answer to one routed Signal. */
  datatype Answer = Answer(target: Option<(string, Pair)>, probe: L.Probe, execution: Execution)

  datatype Response =
    | Unmatched
    | InvalidMapping
    | DepthExceeded
    | ConcurrencySkipped
    | DeploymentUnavailable
    | Duplicate
    | ExecutionFailed
    | Routed(outcome: ExecuteOutcome, cascade: Option<Response>)

  // ---------------------------------------------------------------- one level

  /** The try block, as it stands before its clean-up. */
  datatype Tried = Tried(world: World, response: Response, took: bool, retain: bool, finish: Option<Finish>)

  /** A Run is tracked while it waits, with its claims unless it was interrupted. */
  function Entered(entries: P.Entries, r: Routing, key: Key, run: string, outcome: ExecuteOutcome): P.Entries {
    var held := outcome.StillRunning?;
    if held || outcome.Interrupted? then entries[key := P.Entry(run, r.pair.assistant, r.pair.subject, r.depth, held, held, r.now)] else entries
  }

  /** A result, recorded against its Thread and tracked while it waits. */
  function Received(w: World, r: Routing, key: Key, run: string, outcome: ExecuteOutcome): World {
    w.(seen := w.seen + {key}, threads := K.Recorded(w.threads, key, run), entries := Entered(w.entries, r, key, run, outcome))
  }

  function Sent(w: World, r: Routing, claim: nat): World {
    w.(submissions := w.submissions + [Submission(r, claim)])
  }

  /** Only a success is reported on. */
  function Report(r: Routing, execution: Execution): Option<Finish> {
    if execution.Returns? && execution.outcome.Succeeded? then Some(Finish(P.Key(r.alias, execution.thread), execution.run, r.pair, r.depth))
    else None
  }

  function Ran(w: World, r: Routing, claim: nat, execution: Execution): Tried {
    var v := Sent(w, r, claim);
    match execution
    case Fails => Tried(v, ExecutionFailed, true, false, None)
    case Returns(thread, run, outcome) =>
      Tried(Received(v, r, P.Key(r.alias, thread), run, outcome), Routed(outcome, None), true, outcome.StillRunning?, Report(r, execution))
  }

  function SignalClaimed(w: World, r: Routing): World {
    w.(signals := D.Claimed(w.signals, r.signalId, r.now, D.DEFAULT_RETENTION), claimCalls := w.claimCalls + [D.Call(r.signalId, r.now)])
  }

  function Admitting(w: World, r: Routing, execution: Execution): Tried {
    var v := SignalClaimed(w, r);
    if D.Remembered(w.signals, r.signalId, r.now, D.DEFAULT_RETENTION) then Tried(v, Duplicate, true, false, None)
    else Ran(v, r, |w.claimCalls|, execution)
  }

  function Attempted(conns: Connections, w: World, r: Routing, answer: Answer): Tried {
    var (records, started) := L.EnsureStarted(w.records, r.alias, Conn(conns, r.alias), r.now, answer.probe);
    if started.FailedToStart? then Tried(w.(records := records), DeploymentUnavailable, false, false, None)
    else Admitting(w.(records := records), r, answer.execution)
  }

  /** The finally block: whatever is not retained is given back. */
  function Released(conns: Connections, r: Routing, t: Tried): World {
    t.world.(
      records := if t.retain then t.world.records else L.ReleaseActive(t.world.records, r.alias, Conn(conns, r.alias), r.now),
      claims := if t.retain then t.world.claims else t.world.claims - {r.pair},
      finished := if t.finish.Some? then t.world.finished + [t.finish.value] else t.world.finished)
  }

  datatype Level = Level(world: World, response: Response, finish: Option<Finish>)

  /** One matched Signal, from the claim of its pair to the release. */
  function Claiming(conns: Connections, w: World, r: Routing, answer: Answer): (l: Level)
    ensures l.finish.Some? ==> l.finish.value.depth == r.depth && l.response == Routed(Succeeded, None)
  {
    if C.Live(w.claims, r.pair, r.now, r.staleAfter) then Level(w, ConcurrencySkipped, None)
    else
      var t := Attempted(conns, w.(claims := w.claims[r.pair := r.now]), r, answer);
      Level(Released(conns, r, t), t.response, t.finish)
  }

  function RoutingOf(signal: Signal, target: (string, Pair), now: real, staleAfter: real): Routing {
    if signal.finish.None? then Routing(signal.id, None, None, target.0, target.1, 0, now, staleAfter)
    else Routing(signal.id, Some(signal.finish.value.key), Some(signal.finish.value.runId), target.0, target.1, signal.Depth(), now, staleAfter)
  }

  predicate Mapped(conns: Connections, target: (string, Pair)) {
    target.1.Named() && Registered(conns, target.0)
  }

  function Levelled(conns: Connections, w: World, signal: Signal, now: real, staleAfter: real, answer: Answer): (l: Level)
    ensures l.finish.Some? ==> l.finish.value.depth == signal.Depth() && l.response == Routed(Succeeded, None)
  {
    if answer.target.None? then Level(w, Unmatched, None)
    else if !Mapped(conns, answer.target.value) then Level(w, InvalidMapping, None)
    else Claiming(conns, w, RoutingOf(signal, answer.target.value, now, staleAfter), answer)
  }

  // ---------------------------------------------------------------- the cascade

  datatype Outcome = Outcome(world: World, response: Response, rest: seq<Answer>)

  function Room(signal: Signal): nat {
    if signal.Depth() <= MAX_CASCADE_DEPTH then MAX_CASCADE_DEPTH + 1 - signal.Depth() else 0
  }

  /** One Signal, and after it the `run.finished` Signal of the Run it started. */
  function AllRouted(conns: Connections, w: World, signal: Signal, now: real, staleAfter: real, supply: seq<Answer>): Outcome
    decreases Room(signal)
  {
    if signal.Depth() > MAX_CASCADE_DEPTH then Outcome(w, DepthExceeded, supply)
    else if |supply| == 0 then Outcome(w, Unmatched, supply)
    else
      var l := Levelled(conns, w, signal, now, staleAfter, supply[0]);
      if l.finish.None? then Outcome(l.world, l.response, supply[1..])
      else
        var cascade := AllRouted(conns, l.world, Finished(l.finish.value), now, staleAfter, supply[1..]);
        Outcome(cascade.world, Routed(Succeeded, Some(cascade.response)), cascade.rest)
  }

  // ---------------------------------------------------------------- a sweep

  /** What an ended Run reports: the logical Run of its Thread, or its own id where none is recorded. */
  function FinishOf(threads: K.Records, key: Key, entry: P.Entry): Finish {
    Finish(key, if key in threads then threads[key].runId else entry.invocation, PairOf(entry), entry.cascadeDepth)
  }

  /** What a sweep can see of one Thread; an unregistered Deployment is passed over. */
  function StatusOf(conns: Connections, statuses: map<Key, Observation>, key: Key): Observation {
    if key in statuses && key.deployment in conns then statuses[key] else Unreachable
  }

  /** One tracked Run looked at again. */
  function Looked(conns: Connections, w: World, key: Key, entry: P.Entry, status: Observation, now: real): World {
    w.(claims := SweptClaims(w.claims, entry, status, now),
       records := if entry.deploymentHeld && Settles(status) then L.ReleaseActive(w.records, key.deployment, Conn(conns, key.deployment), now) else w.records,
       entries := SweptEntries(w.entries, key, status, now),
       finished := if status.Completed? then w.finished + [FinishOf(w.threads, key, entry)] else w.finished)
  }

  datatype Swept = Swept(world: World, rest: seq<Answer>)

  /** And, if it succeeded, its finish routed. */
  function SweptOne(conns: Connections, w: World, key: Key, entry: P.Entry, status: Observation, now: real, staleAfter: real, supply: seq<Answer>): Swept {
    var v := Looked(conns, w, key, entry, status, now);
    if status.Completed? then
      var o := AllRouted(conns, v, Finished(FinishOf(w.threads, key, entry)), now, staleAfter, supply);
      Swept(o.world, o.rest)
    else Swept(v, supply)
  }

  /** A sweep over entries read at its start, in the order of `keys`. */
  function SweptAll(conns: Connections, w: World, entries: P.Entries, keys: seq<Key>, statuses: map<Key, Observation>,
                    now: real, staleAfter: real, supply: seq<Answer>): Swept
    requires Elements(keys) <= entries.Keys
  {
    if |keys| == 0 then Swept(w, supply)
    else
      var front, key := keys[..|keys| - 1], Last(keys);
      assert key in Elements(keys) && Elements(front) <= Elements(keys);
      var s := SweptAll(conns, w, entries, front, statuses, now, staleAfter, supply);
      SweptOne(conns, s.world, key, entries[key], StatusOf(conns, statuses, key), now, staleAfter, s.rest)
  }

  /** One line of what a sweep answers. */
  datatype Observed = Observed(key: Key, status: Observation, cascade: Option<Response>)

  /** A Run seen paused or ended is reported, a completed one with the response its finish got. */
  function ObservedOne(conns: Connections, w: World, key: Key, entry: P.Entry, status: Observation, now: real, staleAfter: real,
                       supply: seq<Answer>): seq<Observed> {
    if !Settles(status) then []
    else if !status.Completed? then [Observed(key, status, None)]
    else
      var v := Looked(conns, w, key, entry, status, now);
      [Observed(key, status, Some(AllRouted(conns, v, Finished(FinishOf(w.threads, key, entry)), now, staleAfter, supply).response))]
  }

  function ObservedAll(conns: Connections, w: World, entries: P.Entries, keys: seq<Key>, statuses: map<Key, Observation>,
                       now: real, staleAfter: real, supply: seq<Answer>): seq<Observed>
    requires Elements(keys) <= entries.Keys
  {
    if |keys| == 0 then []
    else
      var front, key := keys[..|keys| - 1], Last(keys);
      assert key in Elements(keys) && Elements(front) <= Elements(keys);
      var s := SweptAll(conns, w, entries, front, statuses, now, staleAfter, supply);
      ObservedAll(conns, w, entries, front, statuses, now, staleAfter, supply)
      + ObservedOne(conns, s.world, key, entries[key], StatusOf(conns, statuses, key), now, staleAfter, s.rest)
  }

  // ---------------------------------------------------------------- fresh Threads

  ghost predicate FreshOne(seen: set<Key>, execution: Execution) {
    execution.Returns? ==> !Blank(execution.thread) && !Blank(execution.run) && forall key | key in seen :: key.thread != execution.thread
  }

  /** Every execution opens a Thread of its own. */
  ghost predicate Fresh(seen: set<Key>, supply: seq<Answer>) {
    && (forall i | 0 <= i < |supply| :: FreshOne(seen, supply[i].execution))
    && (forall i, j | 0 <= i < j < |supply| && supply[i].execution.Returns? && supply[j].execution.Returns? ::
          supply[i].execution.thread != supply[j].execution.thread)
  }

  // ---------------------------------------------------------------- among other calls

  /** The same stores and history, among other calls and beside another sweep. */
  function With(w: World, calls: map<nat, Call>, sweep: Option<P.Entries>): World {
    w.(calls := calls, sweep := sweep)
  }

  function TriedWith(t: Tried, calls: map<nat, Call>, sweep: Option<P.Entries>): Tried {
    t.(world := With(t.world, calls, sweep))
  }

  function LevelWith(l: Level, calls: map<nat, Call>, sweep: Option<P.Entries>): Level {
    l.(world := With(l.world, calls, sweep))
  }

  /** What routing never touches. */
  predicate Kept(w: World, v: World) {
    v.calls == w.calls && v.sweep == w.sweep && v.answers == w.answers && v.resumes == w.resumes && v.replies == w.replies
  }

  lemma ReceivedWith(w: World, calls: map<nat, Call>, sweep: Option<P.Entries>, r: Routing, key: Key, run: string, outcome: ExecuteOutcome)
    ensures Received(With(w, calls, sweep), r, key, run, outcome) == With(Received(w, r, key, run, outcome), calls, sweep)
    ensures Kept(w, Received(w, r, key, run, outcome))
  {
  }

  lemma RanWith(w: World, calls: map<nat, Call>, sweep: Option<P.Entries>, r: Routing, claim: nat, execution: Execution)
    ensures Ran(With(w, calls, sweep), r, claim, execution) == TriedWith(Ran(w, r, claim, execution), calls, sweep)
    ensures Kept(w, Ran(w, r, claim, execution).world)
  {
    assert Sent(With(w, calls, sweep), r, claim) == With(Sent(w, r, claim), calls, sweep);
    if execution.Returns? {
      ReceivedWith(Sent(w, r, claim), calls, sweep, r, P.Key(r.alias, execution.thread), execution.run, execution.outcome);
    }
  }

  lemma AdmittingWith(w: World, calls: map<nat, Call>, sweep: Option<P.Entries>, r: Routing, execution: Execution)
    ensures Admitting(With(w, calls, sweep), r, execution) == TriedWith(Admitting(w, r, execution), calls, sweep)
    ensures Kept(w, Admitting(w, r, execution).world)
  {
    assert SignalClaimed(With(w, calls, sweep), r) == With(SignalClaimed(w, r), calls, sweep);
    RanWith(SignalClaimed(w, r), calls, sweep, r, |w.claimCalls|, execution);
  }

  lemma AttemptedWith(conns: Connections, w: World, calls: map<nat, Call>, sweep: Option<P.Entries>, r: Routing, answer: Answer)
    ensures Attempted(conns, With(w, calls, sweep), r, answer) == TriedWith(Attempted(conns, w, r, answer), calls, sweep)
    ensures Kept(w, Attempted(conns, w, r, answer).world)
  {
    var records := L.EnsureStarted(w.records, r.alias, Conn(conns, r.alias), r.now, answer.probe).0;
    assert With(w, calls, sweep).(records := records) == With(w.(records := records), calls, sweep);
    AdmittingWith(w.(records := records), calls, sweep, r, answer.execution);
  }

  lemma ClaimingWith(conns: Connections, w: World, calls: map<nat, Call>, sweep: Option<P.Entries>, r: Routing, answer: Answer)
    ensures Claiming(conns, With(w, calls, sweep), r, answer) == LevelWith(Claiming(conns, w, r, answer), calls, sweep)
    ensures Kept(w, Claiming(conns, w, r, answer).world)
  {
    var held := w.(claims := w.claims[r.pair := r.now]);
    assert With(w, calls, sweep).(claims := w.claims[r.pair := r.now]) == With(held, calls, sweep);
    AttemptedWith(conns, held, calls, sweep, r, answer);
    ReleasedWith(conns, r, Attempted(conns, held, r, answer), calls, sweep);
  }

  lemma ReleasedWith(conns: Connections, r: Routing, t: Tried, calls: map<nat, Call>, sweep: Option<P.Entries>)
    ensures Released(conns, r, TriedWith(t, calls, sweep)) == With(Released(conns, r, t), calls, sweep)
    ensures Kept(t.world, Released(conns, r, t))
  {
  }

  lemma LevelledWith(conns: Connections, w: World, calls: map<nat, Call>, sweep: Option<P.Entries>, signal: Signal, now: real, staleAfter: real, answer: Answer)
    ensures Levelled(conns, With(w, calls, sweep), signal, now, staleAfter, answer)
            == LevelWith(Levelled(conns, w, signal, now, staleAfter, answer), calls, sweep)
    ensures Kept(w, Levelled(conns, w, signal, now, staleAfter, answer).world)
  {
    if answer.target.Some? && Mapped(conns, answer.target.value) {
      ClaimingWith(conns, w, calls, sweep, RoutingOf(signal, answer.target.value, now, staleAfter), answer);
    }
  }

  /** Routing acts on the stores alone: the calls and the sweep beside it make no difference and are left as they are. */
  lemma {:induction false} AllRoutedWith(conns: Connections, w: World, calls: map<nat, Call>, sweep: Option<P.Entries>,
                                         signal: Signal, now: real, staleAfter: real, supply: seq<Answer>)
    ensures
      var o := AllRouted(conns, w, signal, now, staleAfter, supply);
      && Kept(w, o.world)
      && AllRouted(conns, With(w, calls, sweep), signal, now, staleAfter, supply) == o.(world := With(o.world, calls, sweep))
    decreases Room(signal)
  {
    if signal.Depth() <= MAX_CASCADE_DEPTH && |supply| > 0 {
      var l := Levelled(conns, w, signal, now, staleAfter, supply[0]);
      LevelledWith(conns, w, calls, sweep, signal, now, staleAfter, supply[0]);
      if l.finish.Some? {
        AllRoutedWith(conns, l.world, calls, sweep, Finished(l.finish.value), now, staleAfter, supply[1..]);
      }
    }
  }

  lemma LookedWith(conns: Connections, w: World, calls: map<nat, Call>, sweep: Option<P.Entries>, key: Key, entry: P.Entry, status: Observation, now: real)
    ensures Looked(conns, With(w, calls, sweep), key, entry, status, now) == With(Looked(conns, w, key, entry, status, now), calls, sweep)
    ensures Kept(w, Looked(conns, w, key, entry, status, now))
  {
  }

  lemma SweptOneWith(conns: Connections, w: World, calls: map<nat, Call>, sweep: Option<P.Entries>,
                     key: Key, entry: P.Entry, status: Observation, now: real, staleAfter: real, supply: seq<Answer>)
    ensures
      var s := SweptOne(conns, w, key, entry, status, now, staleAfter, supply);
      && Kept(w, s.world)
      && SweptOne(conns, With(w, calls, sweep), key, entry, status, now, staleAfter, supply) == s.(world := With(s.world, calls, sweep))
  {
    LookedWith(conns, w, calls, sweep, key, entry, status, now);
    AllRoutedWith(conns, Looked(conns, w, key, entry, status, now), calls, sweep, Finished(FinishOf(w.threads, key, entry)), now, staleAfter, supply);
  }

  lemma ObservedOneWith(conns: Connections, w: World, calls: map<nat, Call>, sweep: Option<P.Entries>,
                        key: Key, entry: P.Entry, status: Observation, now: real, staleAfter: real, supply: seq<Answer>)
    ensures ObservedOne(conns, With(w, calls, sweep), key, entry, status, now, staleAfter, supply)
            == ObservedOne(conns, w, key, entry, status, now, staleAfter, supply)
  {
    LookedWith(conns, w, calls, sweep, key, entry, status, now);
    AllRoutedWith(conns, Looked(conns, w, key, entry, status, now), calls, sweep, Finished(FinishOf(w.threads, key, entry)), now, staleAfter, supply);
  }

  lemma {:induction false} SweptAllKeeps(conns: Connections, w: World, entries: P.Entries, keys: seq<Key>, statuses: map<Key, Observation>,
                                         now: real, staleAfter: real, supply: seq<Answer>)
    requires Elements(keys) <= entries.Keys
    ensures Kept(w, SweptAll(conns, w, entries, keys, statuses, now, staleAfter, supply).world)
  {
    if |keys| > 0 {
      var front, key := keys[..|keys| - 1], Last(keys);
      assert key in Elements(keys) && Elements(front) <= Elements(keys);
      SweptAllKeeps(conns, w, entries, front, statuses, now, staleAfter, supply);
      var v := SweptAll(conns, w, entries, front, statuses, now, staleAfter, supply);
      SweptOneWith(conns, v.world, v.world.calls, v.world.sweep, key, entries[key], StatusOf(conns, statuses, key), now, staleAfter, v.rest);
    }
  }
}

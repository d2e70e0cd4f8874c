/**
 One Signal's way through the router, and one sweep over the tracked Runs, as the program runs them
 over the stores (src/cord_runtime/router.py). Each access is a step of the protocol; together they
 do what `Routes` says.
 */
module Router {
  import opened Basics
  import opened Protocol
  import opened ProtocolNames
  import opened Board
  import opened Routes
  import opened RouteFacts
  import C = Concurrency
  import D = SignalDedupe
  import K = RunContinuity
  import L = DeploymentLifecycle
  import P = PendingCompletions

  // ---------------------------------------------------------------- the steps of a route, as equations

  /** The world with one call where it stands. */
  function At(w: World, id: nat, r: Routing, pc: RoutePc): World {
    With(w, w.calls[id := Route(r, pc)], w.sweep)
  }

  lemma OpenIs(conns: Connections, w: World, step: Step)
    requires Enabled(conns, w, step) && (step.RouteSignal? || step.Cascade?)
    ensures Do(conns, w, step) == w.(calls := w.calls[step.id := NewCall(w, step)])
  {
  }

  lemma ClaimPairIs(conns: Connections, w: World, id: nat, r: Routing)
    requires id in w.calls && w.calls[id] == Route(r, Matched)
    ensures Enabled(conns, w, ClaimPair(id))
    ensures Do(conns, w, ClaimPair(id)) ==
            if C.Live(w.claims, r.pair, r.now, r.staleAfter) then w.(calls := w.calls - {id})
            else At(w, id, r, HoldsPair).(claims := w.claims[r.pair := r.now])
  {
  }

  lemma StartIs(conns: Connections, w: World, id: nat, r: Routing, probe: L.Probe)
    requires id in w.calls && w.calls[id] == Route(r, HoldsPair)
    ensures Enabled(conns, w, Start(id, probe))
    ensures
      var (records, started) := L.EnsureStarted(w.records, r.alias, Conn(conns, r.alias), r.now, probe);
      && StartResult(conns, w, Start(id, probe)) == started
      && Do(conns, w, Start(id, probe)) ==
           At(w, id, r, if started.FailedToStart? then Releasing(false, false, None) else DeploymentReady).(records := records)
  {
  }

  lemma ClaimSignalIs(conns: Connections, w: World, id: nat, r: Routing)
    requires id in w.calls && w.calls[id] == Route(r, DeploymentReady)
    ensures Enabled(conns, w, ClaimSignal(id))
    ensures
      var known := D.Remembered(w.signals, r.signalId, r.now, D.DEFAULT_RETENTION);
      Do(conns, w, ClaimSignal(id)) ==
        At(w, id, r, if known then Releasing(true, false, None) else Admitted(|w.claimCalls|))
          .(signals := D.Claimed(w.signals, r.signalId, r.now, D.DEFAULT_RETENTION), claimCalls := w.claimCalls + [D.Call(r.signalId, r.now)])
  {
  }

  lemma ExecuteIs(conns: Connections, w: World, id: nat, r: Routing, claim: nat)
    requires id in w.calls && w.calls[id] == Route(r, Admitted(claim))
    ensures Enabled(conns, w, Execute(id))
    ensures Do(conns, w, Execute(id)) == At(w, id, r, Executing(claim)).(submissions := w.submissions + [Submission(r, claim)])
  {
  }

  lemma ExecuteFailsIs(conns: Connections, w: World, id: nat, r: Routing, claim: nat)
    requires id in w.calls && w.calls[id] == Route(r, Executing(claim))
    ensures Enabled(conns, w, ExecuteFails(id))
    ensures Do(conns, w, ExecuteFails(id)) == At(w, id, r, Releasing(true, false, None))
  {
  }

  lemma ExecuteReturnsIs(conns: Connections, w: World, id: nat, r: Routing, claim: nat, key: Key, run: string, outcome: ExecuteOutcome)
    requires id in w.calls && w.calls[id] == Route(r, Executing(claim))
    requires key.deployment == r.alias && !Blank(key.thread) && key !in w.seen && !Blank(run)
    ensures Enabled(conns, w, ExecuteReturns(id, key.thread, run, outcome))
    ensures Do(conns, w, ExecuteReturns(id, key.thread, run, outcome)) ==
            At(w, id, r, Executed(key, run, outcome)).(seen := w.seen + {key}, threads := K.Recorded(w.threads, key, run))
  {
    assert P.Key(r.alias, key.thread) == key;
  }

  lemma TrackIs(conns: Connections, w: World, id: nat, r: Routing, key: Key, run: string, outcome: ExecuteOutcome)
    requires id in w.calls && w.calls[id] == Route(r, Executed(key, run, outcome))
    ensures Enabled(conns, w, Track(id))
    ensures
      var held := outcome.StillRunning?;
      var finish := if outcome.Succeeded? then Some(Finish(key, run, r.pair, r.depth)) else None;
      Do(conns, w, Track(id)) ==
        At(w, id, r, Releasing(true, held, finish))
          .(entries := if held || outcome.Interrupted? then w.entries[key := P.Entry(run, r.pair.assistant, r.pair.subject, r.depth, held, held, r.now)]
                       else w.entries)
  {
  }

  lemma ReleaseActiveIs(conns: Connections, w: World, id: nat, r: Routing, took: bool, retain: bool, finish: Option<Finish>)
    requires id in w.calls && w.calls[id] == Route(r, Releasing(took, retain, finish))
    ensures Enabled(conns, w, ReleaseActive(id))
    ensures Do(conns, w, ReleaseActive(id)) ==
            At(w, id, r, LettingGo(retain, finish))
              .(records := if retain then w.records else L.ReleaseActive(w.records, r.alias, Conn(conns, r.alias), r.now))
  {
  }

  lemma ReleasePairIs(conns: Connections, w: World, id: nat, r: Routing, retain: bool, finish: Option<Finish>)
    requires id in w.calls && w.calls[id] == Route(r, LettingGo(retain, finish))
    ensures Enabled(conns, w, ReleasePair(id))
    ensures Do(conns, w, ReleasePair(id)) ==
            w.(calls := w.calls - {id}, claims := if retain then w.claims else w.claims - {r.pair},
               finished := if finish.Some? then w.finished + [finish.value] else w.finished)
  {
  }

  lemma AtAgain(w: World, id: nat, r: Routing, pc: RoutePc, q: RoutePc)
    ensures At(At(w, id, r, pc), id, r, q) == At(w, id, r, q)
  {
  }

  lemma StartedAt(w: World, id: nat, r: Routing, pc: RoutePc, records: L.Records)
    ensures At(w, id, r, pc).(records := records) == At(w.(records := records), id, r, pc)
  {
  }

  // ---------------------------------------------------------------- route_signal

  /** A result: recorded against its Thread, and tracked while it waits. */
  method Receive(b: Stores, ghost id: nat, r: Routing, ghost claim: nat, key: Key, run: string, outcome: ExecuteOutcome)
    returns (retain: bool, finish: Option<Finish>)
    requires b.Valid() && id in b.world.calls && b.world.calls[id] == Route(r, Executing(claim)) && CallNamed(b.world.calls[id])
    requires key.deployment == r.alias && key.Named() && key !in b.world.seen && !Blank(run)
    modifies b, b.pending, b.continuity
    ensures b.Valid() && b.world == At(Received(old(b.world), r, key, run, outcome), id, r, Releasing(true, retain, finish))
    ensures retain == outcome.StillRunning?
    ensures finish == if outcome.Succeeded? then Some(Finish(key, run, r.pair, r.depth)) else None
  {
    ghost var start := b.world;
    ExecuteReturnsIs(b.conns, start, id, r, claim, key, run, outcome);
    b.ExecuteReturnsStep(id, key, run, outcome);
    TrackIs(b.conns, b.world, id, r, key, run, outcome);
    b.TrackStep(id, r, key, run, outcome);
    retain := outcome.StillRunning?;
    finish := if outcome.Succeeded? then Some(Finish(key, run, r.pair, r.depth)) else None;
    assert b.world.calls == start.calls[id := Route(r, Releasing(true, retain, finish))];
  }

  /** Submission, and what its result leaves tracked. */
  method RunIt(b: Stores, ghost id: nat, r: Routing, ghost claim: nat, execution: Execution)
    returns (response: Response, retain: bool, finish: Option<Finish>)
    requires b.Valid() && id in b.world.calls && b.world.calls[id] == Route(r, Admitted(claim)) && CallNamed(b.world.calls[id])
    requires FreshOne(b.world.seen, execution)
    modifies b, b.pending, b.continuity
    ensures
      var t := Ran(old(b.world), r, claim, execution);
      b.Valid() && b.world == At(t.world, id, r, Releasing(true, retain, finish)) && Tried(t.world, response, true, retain, finish) == t
  {
    ghost var start := b.world;
    ExecuteIs(b.conns, start, id, r, claim);
    b.Log(Execute(id));
    SentIs(start, id, r, claim);
    if execution.Fails? {
      ExecuteFailsIs(b.conns, b.world, id, r, claim);
      b.Log(ExecuteFails(id));
      AtAgain(Sent(start, r, claim), id, r, Executing(claim), Releasing(true, false, None));
      return ExecutionFailed, false, None;
    }
    var key := P.Key(r.alias, execution.thread);
    retain, finish := Receive(b, id, r, claim, key, execution.run, execution.outcome);
    response := Routed(execution.outcome, None);
    ghost var sent := Sent(start, r, claim);
    ReceivedWith(sent, sent.calls[id := Route(r, Executing(claim))], sent.sweep, r, key, execution.run, execution.outcome);
    AtAgain(Received(Sent(start, r, claim), r, key, execution.run, execution.outcome), id, r, Executing(claim), Releasing(true, retain, finish));
  }

  lemma SentIs(w: World, id: nat, r: Routing, claim: nat)
    ensures At(w, id, r, Executing(claim)).(submissions := w.submissions + [Submission(r, claim)]) == At(Sent(w, r, claim), id, r, Executing(claim))
  {
  }

  method Admit(b: Stores, ghost id: nat, r: Routing, execution: Execution)
    returns (response: Response, retain: bool, finish: Option<Finish>)
    requires b.Valid() && id in b.world.calls && b.world.calls[id] == Route(r, DeploymentReady) && CallNamed(b.world.calls[id])
    requires FreshOne(b.world.seen, execution)
    modifies b, b.signals, b.pending, b.continuity
    ensures
      var t := Admitting(old(b.world), r, execution);
      b.Valid() && b.world == At(t.world, id, r, Releasing(true, retain, finish)) && Tried(t.world, response, true, retain, finish) == t
  {
    ghost var start := b.world;
    ClaimSignalIs(b.conns, start, id, r);
    var claimed := b.ClaimSignalStep(id, r);
    SignalClaimedIs(start, id, r, if claimed then Admitted(|start.claimCalls|) else Releasing(true, false, None));
    if !claimed { return Duplicate, false, None; }
    response, retain, finish := RunIt(b, id, r, |start.claimCalls|, execution);
    ghost var admitted := SignalClaimed(start, r);
    RanWith(admitted, admitted.calls[id := Route(r, Admitted(|start.claimCalls|))], admitted.sweep, r, |start.claimCalls|, execution);
    AtAgain(Ran(SignalClaimed(start, r), r, |start.claimCalls|, execution).world, id, r, Admitted(|start.claimCalls|), Releasing(true, retain, finish));
  }

  lemma SignalClaimedIs(w: World, id: nat, r: Routing, pc: RoutePc)
    ensures At(w, id, r, pc).(signals := D.Claimed(w.signals, r.signalId, r.now, D.DEFAULT_RETENTION), claimCalls := w.claimCalls + [D.Call(r.signalId, r.now)])
            == At(SignalClaimed(w, r), id, r, pc)
  {
  }

  /** The try block: from a claimed pair to the release of claims. */
  method Attempt(b: Stores, ghost id: nat, r: Routing, answer: Answer)
    returns (response: Response, ghost took: bool, retain: bool, finish: Option<Finish>)
    requires b.Valid() && id in b.world.calls && b.world.calls[id] == Route(r, HoldsPair) && CallNamed(b.world.calls[id])
    requires FreshOne(b.world.seen, answer.execution)
    modifies b, b.lifecycle, b.signals, b.pending, b.continuity
    ensures
      var t := Attempted(b.conns, old(b.world), r, answer);
      b.Valid() && b.world == At(t.world, id, r, Releasing(took, retain, finish)) && Tried(t.world, response, took, retain, finish) == t
  {
    ghost var start := b.world;
    ghost var records := L.EnsureStarted(start.records, r.alias, Conn(b.conns, r.alias), r.now, answer.probe).0;
    StartIs(b.conns, start, id, r, answer.probe);
    var started := b.StartStep(id, r.alias, r.now, answer.probe);
    StartedAt(start, id, r, if started.FailedToStart? then Releasing(false, false, None) else DeploymentReady, records);
    if started.FailedToStart? { return DeploymentUnavailable, false, false, None; }
    response, retain, finish := Admit(b, id, r, answer.execution);
    took := true;
    AdmittingWith(start.(records := records), start.calls[id := Route(r, DeploymentReady)], start.sweep, r, answer.execution);
    AtAgain(Admitting(start.(records := records), r, answer.execution).world, id, r, DeploymentReady, Releasing(true, retain, finish));
  }

  /** The finally block: whatever is not retained is given back, activity first. */
  method GiveBack(b: Stores, ghost id: nat, r: Routing, ghost t: Tried, retain: bool)
    requires b.Valid() && id !in t.world.calls && b.world == At(t.world, id, r, Releasing(t.took, t.retain, t.finish)) && r.pair.Named() && retain == t.retain
    modifies b, b.lifecycle, b.concurrency
    ensures b.Valid() && b.world == Released(b.conns, r, t)
  {
    ghost var start := b.world;
    ReleaseActiveIs(b.conns, start, id, r, t.took, retain, t.finish);
    b.ReleaseActiveStep(id, r.alias, r.now, retain);
    AtAgain(t.world, id, r, Releasing(t.took, t.retain, t.finish), LettingGo(t.retain, t.finish));
    ReleasePairIs(b.conns, b.world, id, r, retain, t.finish);
    b.ReleasePairStep(id, r.pair, retain);
    ReleasedIs(b.conns, id, r, t);
  }

  lemma ReleasedIs(conns: Connections, id: nat, r: Routing, t: Tried)
    requires id !in t.world.calls
    ensures
      var v := At(t.world, id, r, LettingGo(t.retain, t.finish))
        .(records := if t.retain then t.world.records else L.ReleaseActive(t.world.records, r.alias, Conn(conns, r.alias), r.now));
      v.(calls := v.calls - {id}, claims := if t.retain then v.claims else v.claims - {r.pair},
         finished := if t.finish.Some? then v.finished + [t.finish.value] else v.finished) == Released(conns, r, t)
  {
    assert t.world.calls[id := Route(r, LettingGo(t.retain, t.finish))] - {id} == t.world.calls;
  }

  /** The call opens and claims its pair; refused, it leaves nothing. */
  method OpenAndClaim(b: Stores, ghost id: nat, r: Routing, ghost step: Step) returns (claimed: bool)
    requires b.Valid() && Enabled(b.conns, b.world, step) && (step.RouteSignal? || step.Cascade?) && step.id == id
    requires NewCall(b.world, step) == Route(r, Matched) && CallNamed(Route(r, Matched))
    modifies b, b.concurrency
    ensures b.Valid() && claimed == !C.Live(old(b.world).claims, r.pair, r.now, r.staleAfter)
    ensures b.world == if claimed then At(old(b.world).(claims := old(b.world).claims[r.pair := r.now]), id, r, HoldsPair) else old(b.world)
  {
    ghost var start := b.world;
    OpenIs(b.conns, start, step);
    b.Log(step);
    ClaimPairIs(b.conns, b.world, id, r);
    claimed := b.ClaimPairStep(id, r);
    ClaimedIs(start, id, r);
  }

  /** One matched Signal: at most one submission, and everything it took given back or left tracked. */
  method RouteOnce(b: Stores, ghost id: nat, r: Routing, answer: Answer, ghost step: Step) returns (response: Response, finish: Option<Finish>)
    requires b.Valid() && Enabled(b.conns, b.world, step) && (step.RouteSignal? || step.Cascade?) && step.id == id
    requires NewCall(b.world, step) == Route(r, Matched) && CallNamed(Route(r, Matched)) && FreshOne(b.world.seen, answer.execution)
    modifies b, b.concurrency, b.lifecycle, b.signals, b.pending, b.continuity
    ensures b.Valid() && Level(b.world, response, finish) == Claiming(b.conns, old(b.world), r, answer)
  {
    ghost var start := b.world;
    var claimed := OpenAndClaim(b, id, r, step);
    if !claimed { return ConcurrencySkipped, None; }
    ghost var held := start.(claims := start.claims[r.pair := r.now]);
    AttemptedWith(b.conns, held, held.calls[id := Route(r, HoldsPair)], held.sweep, r, answer);
    var retain;
    ghost var took;
    response, took, retain, finish := Attempt(b, id, r, answer);
    AtAgain(Attempted(b.conns, held, r, answer).world, id, r, HoldsPair, Releasing(took, retain, finish));
    GiveBack(b, id, r, Attempted(b.conns, held, r, answer), retain);
  }

  /** After its claim a call stands alone on the world it found, or is gone from it. */
  lemma ClaimedIs(w: World, id: nat, r: Routing)
    requires id !in w.calls
    ensures At(w, id, r, Matched).(calls := At(w, id, r, Matched).calls - {id}) == w
    ensures At(At(w, id, r, Matched), id, r, HoldsPair).(claims := w.claims[r.pair := r.now]) == At(w.(claims := w.claims[r.pair := r.now]), id, r, HoldsPair)
  {
    assert w.calls[id := Route(r, Matched)] - {id} == w.calls;
  }

  /** The matching rule's target, then one level of routing. */
  method RouteLevel(b: Stores, ghost id: nat, signal: Signal, ghost i: nat, now: real, staleAfter: real, answer: Answer)
    returns (response: Response, finish: Option<Finish>)
    requires b.Valid() && id !in b.world.calls && Given(b.world, signal, i) && FreshOne(b.world.seen, answer.execution)
    requires signal.Depth() <= MAX_CASCADE_DEPTH
    modifies b, b.concurrency, b.lifecycle, b.signals, b.pending, b.continuity
    ensures b.Valid() && Level(b.world, response, finish) == Levelled(b.conns, old(b.world), signal, now, staleAfter, answer)
  {
    if answer.target.None? { return Unmatched, None; }
    var target := answer.target.value;
    if !target.1.Named() || target.0 !in b.conns || Blank(target.0) { return InvalidMapping, None; }
    var r := RoutingOf(signal, target, now, staleAfter);
    ghost var step := if signal.finish.None? then Step.RouteSignal(id, signal.id, target.0, target.1, now, staleAfter)
                      else Cascade(id, i, target.0, target.1, now, staleAfter);
    if signal.finish.Some? {
      FinishedIdNamed(signal.finish.value.runId);
    }
    response, finish := RouteOnce(b, id, r, answer, step);
  }

  /** A signal the router is given: external, or the report of a recorded finish. */
  ghost predicate Given(w: World, signal: Signal, i: nat) {
    if signal.finish.None? then !Blank(signal.id)
    else i < |w.finished| && w.finished[i] == signal.finish.value && signal.id == FinishedId(signal.finish.value.runId)
  }

  lemma FinishGiven(conns: Connections, w: World, signal: Signal, now: real, staleAfter: real, answer: Answer)
    ensures
      var l := Levelled(conns, w, signal, now, staleAfter, answer);
      l.finish.Some? ==> l.world.finished == w.finished + [l.finish.value] && Given(l.world, Finished(l.finish.value), |w.finished|)
  {
  }

  /**
   Routes one Signal and, after its own claims are released, the `run.finished` Signal of the Run it
   started, and so on down to the depth bound.
   */
  method RouteSignal(b: Stores, ghost id: nat, signal: Signal, ghost i: nat, now: real, staleAfter: real, supply: seq<Answer>)
    returns (response: Response, rest: seq<Answer>)
    requires b.Valid() && id !in b.world.calls && Given(b.world, signal, i) && Fresh(b.world.seen, supply)
    modifies b, b.concurrency, b.lifecycle, b.signals, b.pending, b.continuity
    ensures b.Valid() && Outcome(b.world, response, rest) == AllRouted(b.conns, old(b.world), signal, now, staleAfter, supply)
    ensures Fresh(b.world.seen, rest)
    decreases Room(signal)
  {
    if signal.finish.Some? && signal.finish.value.depth >= MAX_CASCADE_DEPTH { return DepthExceeded, supply; }
    if |supply| == 0 { return Unmatched, supply; }
    rest := supply[1..];
    ghost var start := b.world;
    var finish;
    response, finish := RouteLevel(b, id, signal, i, now, staleAfter, supply[0]);
    LevelOpens(b.conns, start, signal, now, staleAfter, supply[0]);
    FreshRest(start.seen, supply, b.world.seen);
    if finish.None? { return; }
    FinishGiven(b.conns, start, signal, now, staleAfter, supply[0]);
    LevelledWith(b.conns, start, start.calls, start.sweep, signal, now, staleAfter, supply[0]);
    var cascade;
    cascade, rest := RouteSignal(b, id, Finished(finish.value), |start.finished|, now, staleAfter, rest);
    response := Routed(Succeeded, Some(cascade));
  }

  // ---------------------------------------------------------------- sweep_pending

  /** One entry of a sweep has its names in order. */
  lemma EntryInOrder(b: Stores, key: Key)
    requires b.Valid() && b.world.sweep.Some? && key in b.world.sweep.value
    ensures EntryNamed(key, b.world.sweep.value[key])
  {
    var n := |b.log|;
    assert b.trace[n] == b.world;
    NamedAlways(b.conns, b.trace, b.log, n);
    assert Snapshot(b.world) == b.world.sweep.value;
  }

  lemma SweepEntryIs(conns: Connections, w: World, key: Key, status: Observation, now: real)
    requires w.sweep.Some? && key in w.sweep.value && (status.Unreachable? || key.deployment in conns)
    ensures Enabled(conns, w, SweepEntry(key, status, now))
    ensures Do(conns, w, SweepEntry(key, status, now)) == With(Looked(conns, w, key, w.sweep.value[key], status, now), w.calls, Some(w.sweep.value - {key}))
  {
  }

  lemma FinishNoted(conns: Connections, w: World, key: Key, entry: P.Entry, status: Observation, now: real)
    requires status.Completed?
    ensures Given(Looked(conns, w, key, entry, status, now), Finished(FinishOf(w.threads, key, entry)), |w.finished|)
    ensures Looked(conns, w, key, entry, status, now).threads == w.threads && Looked(conns, w, key, entry, status, now).seen == w.seen
  {
  }

  method LogicalRunOf(b: Stores, key: Key, entry: P.Entry) returns (finish: Finish)
    requires b.Valid()
    ensures finish == FinishOf(b.world.threads, key, entry)
  {
    var logicalRun := b.continuity.LogicalRun(key);
    finish := Finish(key, if logicalRun.Ok? then logicalRun.value.runId else entry.invocation, PairOf(entry), entry.cascadeDepth);
  }

  /** Acts on one tracked entry and routes its finish. */
  method SweepOne(b: Stores, ghost id: nat, key: Key, entry: P.Entry, status: Observation, now: real, staleAfter: real, supply: seq<Answer>)
    returns (rest: seq<Answer>, observed: seq<Observed>)
    requires b.Valid() && id !in b.world.calls && b.world.sweep.Some? && key in b.world.sweep.value && b.world.sweep.value[key] == entry
    requires Fresh(b.world.seen, supply) && (status.Unreachable? || key.deployment in b.conns)
    modifies b, b.concurrency, b.lifecycle, b.signals, b.pending, b.continuity
    ensures b.Valid() && Fresh(b.world.seen, rest)
    ensures
      var s := SweptOne(b.conns, old(b.world), key, entry, status, now, staleAfter, supply);
      rest == s.rest && b.world == With(s.world, old(b.world).calls, Some(old(b.world).sweep.value - {key}))
    ensures observed == ObservedOne(b.conns, old(b.world), key, entry, status, now, staleAfter, supply)
  {
    ghost var start := b.world;
    ghost var left := Some(start.sweep.value - {key});
    EntryInOrder(b, key);
    SweepEntryIs(b.conns, start, key, status, now);
    b.SweepEntryStep(key, entry, status, now);
    LookedWith(b.conns, start, start.calls, left, key, entry, status, now);
    if !status.Completed? { return supply, if Settles(status) then [Observed(key, status, None)] else []; }
    ghost var looked := Looked(b.conns, start, key, entry, status, now);
    FinishNoted(b.conns, start, key, entry, status, now);
    var finish := LogicalRunOf(b, key, entry);
    AllRoutedWith(b.conns, looked, start.calls, left, Finished(finish), now, staleAfter, supply);
    var response;
    response, rest := RouteSignal(b, id, Finished(finish), |start.finished|, now, staleAfter, supply);
    observed := [Observed(key, status, Some(response))];
  }

  function Left(entries: P.Entries, left: set<Key>): P.Entries {
    map key | key in entries && key in left :: entries[key]
  }

  lemma OneLess(entries: P.Entries, left: set<Key>, key: Key)
    requires key in left && left <= entries.Keys
    ensures Left(entries, left) - {key} == Left(entries, left - {key})
  {
  }

  /** A sweep under way: the stores are as the entries looked at left them, and the snapshot is what is left. */
  ghost predicate SweepsOn(start: World, w: World, s: Swept, entries: P.Entries, left: set<Key>) {
    w == With(s.world, start.calls, Some(Left(entries, left)))
  }

  /**
   Looks once at every tracked Run, gives back what ended Runs held, and routes the finish of those
   that succeeded: `order` lists the entries found, each once, in the order they were looked at.
   `observed` is what it answers.
   */
  method SweepPending(b: Stores, ghost id: nat, now: real, staleAfter: real, statuses: map<Key, Observation>, supply: seq<Answer>)
    returns (rest: seq<Answer>, observed: seq<Observed>, ghost order: seq<Key>)
    requires b.Valid() && id !in b.world.calls && b.world.sweep.None? && Fresh(b.world.seen, supply)
    modifies b, b.concurrency, b.lifecycle, b.signals, b.pending, b.continuity
    ensures b.Valid() && Fresh(b.world.seen, rest)
    ensures NoDup(order) && Elements(order) == old(b.world).entries.Keys
    ensures Swept(b.world, rest) == SweptAll(b.conns, old(b.world), old(b.world).entries, order, statuses, now, staleAfter, supply)
    ensures observed == ObservedAll(b.conns, old(b.world), old(b.world).entries, order, statuses, now, staleAfter, supply)
  {
    ghost var start := b.world;
    var entries := b.ReadAllPending();
    SweepBegins(b.conns, start);
    rest, observed, order := SweepAll(b, id, now, staleAfter, entries, statuses, supply, start);
    ghost var swept := b.world;
    b.Log(EndSweep);
    SweptAllKeeps(b.conns, start, entries, order, statuses, now, staleAfter, supply);
    SweepEnds(b.conns, start, swept, SweptAll(b.conns, start, entries, order, statuses, now, staleAfter, supply), entries);
  }

  lemma SweepBegins(conns: Connections, w: World)
    requires w.sweep.None?
    ensures Do(conns, w, BeginSweep) == With(w, w.calls, Some(Left(w.entries, w.entries.Keys)))
  {
    assert Left(w.entries, w.entries.Keys) == w.entries;
  }

  lemma SweepEnds(conns: Connections, start: World, w: World, s: Swept, entries: P.Entries)
    requires SweepsOn(start, w, s, entries, {}) && Kept(start, s.world) && start.sweep.None?
    ensures Do(conns, w, EndSweep) == s.world
  {
  }

  method SweepAll(b: Stores, ghost id: nat, now: real, staleAfter: real, entries: P.Entries, statuses: map<Key, Observation>, supply: seq<Answer>,
                  ghost start: World)
    returns (rest: seq<Answer>, observed: seq<Observed>, ghost order: seq<Key>)
    requires b.Valid() && id !in start.calls && Fresh(b.world.seen, supply) && SweepsOn(start, b.world, Swept(start, supply), entries, entries.Keys)
    modifies b, b.concurrency, b.lifecycle, b.signals, b.pending, b.continuity
    ensures b.Valid() && Fresh(b.world.seen, rest)
    ensures NoDup(order) && Elements(order) == entries.Keys
    ensures
      var s := SweptAll(b.conns, start, entries, order, statuses, now, staleAfter, supply);
      rest == s.rest && SweepsOn(start, b.world, s, entries, {})
    ensures observed == ObservedAll(b.conns, start, entries, order, statuses, now, staleAfter, supply)
  {
    rest, observed, order := supply, [], [];
    var left := entries.Keys;
    while left != {}
      invariant b.Valid() && Fresh(b.world.seen, rest)
      invariant left <= entries.Keys && NoDup(order) && Elements(order) == entries.Keys - left
      invariant rest == SweptAll(b.conns, start, entries, order, statuses, now, staleAfter, supply).rest
      invariant observed == ObservedAll(b.conns, start, entries, order, statuses, now, staleAfter, supply)
      invariant SweepsOn(start, b.world, SweptAll(b.conns, start, entries, order, statuses, now, staleAfter, supply), entries, left)
      decreases left
    {
      var key :| key in left;
      ghost var s := SweptAll(b.conns, start, entries, order, statuses, now, staleAfter, supply);
      var status := StatusOf(b.conns, statuses, key);
      SweptFurther(b.conns, start, entries, order, key, statuses, now, staleAfter, supply, left);
      SweptOneWith(b.conns, s.world, start.calls, Some(Left(entries, left)), key, entries[key], status, now, staleAfter, rest);
      OneLess(entries, left, key);
      ObservedOneWith(b.conns, s.world, start.calls, Some(Left(entries, left)), key, entries[key], status, now, staleAfter, rest);
      var seen;
      rest, seen := SweepOne(b, id, key, entries[key], status, now, staleAfter, rest);
      observed := observed + seen;
      order, left := order + [key], left - {key};
    }
  }

  lemma SweptFurther(conns: Connections, w: World, entries: P.Entries, order: seq<Key>, key: Key, statuses: map<Key, Observation>,
                     now: real, staleAfter: real, supply: seq<Answer>, left: set<Key>)
    requires left <= entries.Keys && key in left && NoDup(order) && Elements(order) == entries.Keys - left
    ensures NoDup(order + [key]) && Elements(order + [key]) == entries.Keys - (left - {key})
    ensures
      var s := SweptAll(conns, w, entries, order, statuses, now, staleAfter, supply);
      && SweptAll(conns, w, entries, order + [key], statuses, now, staleAfter, supply)
         == SweptOne(conns, s.world, key, entries[key], StatusOf(conns, statuses, key), now, staleAfter, s.rest)
      && ObservedAll(conns, w, entries, order + [key], statuses, now, staleAfter, supply)
         == ObservedAll(conns, w, entries, order, statuses, now, staleAfter, supply)
            + ObservedOne(conns, s.world, key, entries[key], StatusOf(conns, statuses, key), now, staleAfter, s.rest)
  {
    assert Elements(order + [key]) == Elements(order) + {key};
    assert key !in Elements(order);
    assert forall i | 0 <= i < |order| :: order[i] in Elements(order);
    assert (order + [key])[..|order|] == order && Last(order + [key]) == key;
  }
}

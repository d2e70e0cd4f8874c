/** The `run.finished` cascade: one child per logical Run and window, and a bounded depth. */
module ProtocolCascade {
  import opened Basics
  import opened Protocol
  import opened ProtocolFrames
  import D = SignalDedupe
  import P = PendingCompletions

  // ---------------------------------------------------------------- one logical Run per Thread

  /** The run id a Thread's completion is reported under. */
  predicate Names(w: World, key: Key, runId: string) {
    key in w.threads && w.threads[key].runId == runId
  }

  predicate FinishKnown(w: World, f: Finish) {
    Names(w, f.key, f.runId)
  }

  predicate CallKnown(w: World, c: Call) {
    match c
    case Route(r, pc) =>
      && (r.source.Some? ==> r.causedBy.Some? && Names(w, r.source.value, r.causedBy.value) && r.signalId == FinishedId(r.causedBy.value))
      && (pc.Executed? ==> Names(w, pc.key, pc.run))
      && (pc.Releasing? && pc.finish.Some? ==> FinishKnown(w, pc.finish.value))
      && (pc.LettingGo? && pc.finish.Some? ==> FinishKnown(w, pc.finish.value))
    case Submit(q, at) =>
      at.Returned? || at.Settling? ==> Names(w, KeyOf(q.slot), at.logicalRun)
  }

  /** Whatever speaks of a Thread speaks of one recorded there, under its one run id. */
  ghost predicate Known(w: World) {
    && w.threads.Keys <= w.seen
    && w.entries.Keys <= w.threads.Keys && Snapshot(w).Keys <= w.threads.Keys
    && (forall id | id in w.calls :: CallKnown(w, w.calls[id]))
    && (forall id | SubmitAt(w, id) :: KeyOf(w.calls[id].q.slot) in w.seen)
    && (forall i | 0 <= i < |w.finished| :: FinishKnown(w, w.finished[i]))
  }

  /** A Thread never changes its logical Run. */
  lemma NamesStay(conns: Connections, w: World, step: Step, key: Key, runId: string)
    requires Enabled(conns, w, step) && Names(w, key, runId)
    ensures Names(Do(conns, w, step), key, runId)
  {
  }

  lemma CallStays(conns: Connections, w: World, step: Step, c: Call)
    requires Enabled(conns, w, step) && CallKnown(w, c)
    ensures CallKnown(Do(conns, w, step), c)
  {
    forall key, runId | Names(w, key, runId)
      ensures Names(Do(conns, w, step), key, runId)
    {
      NamesStay(conns, w, step, key, runId);
    }
  }

  lemma ActorKnown(conns: Connections, w: World, step: Step)
    requires Enabled(conns, w, step) && Known(w) && Actor(step).Some? && Moved(conns, w, step).Some?
    ensures CallKnown(Do(conns, w, step), Moved(conns, w, step).value)
    ensures Moved(conns, w, step).value.Submit? ==> KeyOf(Moved(conns, w, step).value.q.slot) in Do(conns, w, step).seen
  {
    if Opens(step) {
      NewCallKnown(conns, w, step);
    } else {
      OldCallKnown(conns, w, step);
    }
  }

  lemma NewCallKnown(conns: Connections, w: World, step: Step)
    requires Enabled(conns, w, step) && Known(w) && Opens(step)
    ensures CallKnown(Do(conns, w, step), NewCall(w, step))
    ensures NewCall(w, step).Submit? ==> KeyOf(NewCall(w, step).q.slot) in Do(conns, w, step).seen
  {
    if step.Cascade? {
      assert FinishKnown(w, w.finished[step.i]);
    }
  }

  lemma OldCallKnown(conns: Connections, w: World, step: Step)
    requires Enabled(conns, w, step) && Known(w) && Actor(step).Some? && !Opens(step) && Moved(conns, w, step).Some?
    ensures CallKnown(Do(conns, w, step), Moved(conns, w, step).value)
    ensures Moved(conns, w, step).value.Submit? ==> KeyOf(Moved(conns, w, step).value.q.slot) in Do(conns, w, step).seen
  {
    if RouteAt(w, step.id) {
      RouteKnown(conns, w, step);
    } else {
      SubmitKnown(conns, w, step);
    }
  }

  lemma RouteKnown(conns: Connections, w: World, step: Step)
    requires Enabled(conns, w, step) && Known(w) && Actor(step).Some? && RouteAt(w, step.id) && RouteMoves(conns, w, step).Some?
    ensures CallKnown(Do(conns, w, step), Route(w.calls[step.id].r, RouteMoves(conns, w, step).value))
  {
    CallStays(conns, w, step, w.calls[step.id]);
  }

  lemma SubmitKnown(conns: Connections, w: World, step: Step)
    requires Enabled(conns, w, step) && Known(w) && Actor(step).Some? && SubmitAt(w, step.id) && SubmitMoves(conns, w, step).Some?
    ensures CallKnown(Do(conns, w, step), Submit(w.calls[step.id].q, SubmitMoves(conns, w, step).value))
    ensures KeyOf(w.calls[step.id].q.slot) in Do(conns, w, step).seen
  {
    CallStays(conns, w, step, w.calls[step.id]);
  }

  lemma CallsKnown(conns: Connections, w: World, step: Step, id: nat)
    requires Enabled(conns, w, step) && Known(w) && id in Do(conns, w, step).calls
    ensures CallKnown(Do(conns, w, step), Do(conns, w, step).calls[id])
    ensures SubmitAt(Do(conns, w, step), id) ==> KeyOf(Do(conns, w, step).calls[id].q.slot) in Do(conns, w, step).seen
  {
    if Actor(step) == Some(id) {
      ActorKnown(conns, w, step);
    } else {
      OthersUntouched(conns, w, step);
      CallStays(conns, w, step, w.calls[id]);
    }
  }

  lemma ThreadsSeen(conns: Connections, w: World, step: Step)
    requires Enabled(conns, w, step) && Known(w)
    ensures Do(conns, w, step).threads.Keys <= Do(conns, w, step).seen && w.threads.Keys <= Do(conns, w, step).threads.Keys
  {
  }

  lemma EntriesRecorded(conns: Connections, w: World, step: Step)
    requires Enabled(conns, w, step) && Known(w)
    ensures Do(conns, w, step).entries.Keys <= Do(conns, w, step).threads.Keys
  {
    if step.Track? || step.Settle? {
      assert CallKnown(w, w.calls[step.id]);
    } else if !step.SweepEntry? {
      EntriesUntouched(conns, w, step);
    }
  }

  lemma ThreadsKnown(conns: Connections, w: World, step: Step)
    requires Enabled(conns, w, step) && Known(w)
    ensures
      var v := Do(conns, w, step);
      v.threads.Keys <= v.seen && v.entries.Keys <= v.threads.Keys && Snapshot(v).Keys <= v.threads.Keys
  {
    ThreadsSeen(conns, w, step);
    EntriesRecorded(conns, w, step);
  }

  lemma FinishesGrow(conns: Connections, w: World, step: Step)
    requires Enabled(conns, w, step)
    ensures
      var v := Do(conns, w, step);
      v.finished == w.finished || (|v.finished| > 0 && v.finished == w.finished + [Last(v.finished)])
  {
  }

  lemma NewFinishKnown(conns: Connections, w: World, step: Step)
    requires Enabled(conns, w, step) && Known(w) && Do(conns, w, step).finished != w.finished
    ensures |Do(conns, w, step).finished| > 0 && FinishKnown(Do(conns, w, step), Last(Do(conns, w, step).finished))
  {
    if Actor(step).Some? {
      assert CallKnown(w, w.calls[step.id]);
    }
  }

  lemma FinishesKnown(conns: Connections, w: World, step: Step, i: nat)
    requires Enabled(conns, w, step) && Known(w) && i < |Do(conns, w, step).finished|
    ensures FinishKnown(Do(conns, w, step), Do(conns, w, step).finished[i])
  {
    FinishesGrow(conns, w, step);
    if i < |w.finished| {
      NamesStay(conns, w, step, w.finished[i].key, w.finished[i].runId);
    } else {
      NewFinishKnown(conns, w, step);
    }
  }

  lemma KnownStep(conns: Connections, w: World, step: Step)
    requires Enabled(conns, w, step) && Known(w)
    ensures Known(Do(conns, w, step))
  {
    var v := Do(conns, w, step);
    ThreadsKnown(conns, w, step);
    forall id | id in v.calls
      ensures CallKnown(v, v.calls[id]) && (SubmitAt(v, id) ==> KeyOf(v.calls[id].q.slot) in v.seen)
    {
      CallsKnown(conns, w, step, id);
    }
    forall i | 0 <= i < |v.finished|
      ensures FinishKnown(v, v.finished[i])
    {
      FinishesKnown(conns, w, step, i);
    }
  }

  // ---------------------------------------------------------------- claims behind submissions

  predicate Backed(w: World, r: Routing, claim: nat) {
    claim < |w.claimCalls| && w.claimCalls[claim] == D.Call(r.signalId, r.now) && D.Succeeds(w.claimCalls, claim, D.DEFAULT_RETENTION)
  }

  predicate HasClaim(w: World, id: nat) {
    RouteAt(w, id) && w.calls[id].pc.Admitted?
  }

  /** Each submission, made or about to be made, spends a successful Signal claim of its own. */
  ghost predicate Spent(w: World) {
    && w.signals == D.After(w.claimCalls, D.DEFAULT_RETENTION)
    && (forall id | HasClaim(w, id) :: Backed(w, w.calls[id].r, w.calls[id].pc.claim))
    && (forall i | 0 <= i < |w.submissions| :: Backed(w, w.submissions[i].routing, w.submissions[i].claim))
    && (forall id, j | HasClaim(w, id) && HasClaim(w, j) && w.calls[id].pc.claim == w.calls[j].pc.claim :: id == j)
    && (forall id, i | HasClaim(w, id) && 0 <= i < |w.submissions| :: w.submissions[i].claim != w.calls[id].pc.claim)
    && (forall i, j | 0 <= i < j < |w.submissions| :: w.submissions[i].claim != w.submissions[j].claim)
  }

  lemma BackedStays(conns: Connections, w: World, step: Step, r: Routing, claim: nat)
    requires Enabled(conns, w, step) && Backed(w, r, claim)
    ensures Backed(Do(conns, w, step), r, claim)
  {
    var v := Do(conns, w, step);
    HistoryUntouched(conns, w, step);
    assert v.claimCalls[..claim] == w.claimCalls[..claim];
  }

  lemma ClaimStep(conns: Connections, w: World, step: Step)
    requires Enabled(conns, w, step) && step.ClaimSignal? && w.signals == D.After(w.claimCalls, D.DEFAULT_RETENTION)
    ensures
      var v := Do(conns, w, step);
      && v.signals == D.After(v.claimCalls, D.DEFAULT_RETENTION)
      && v.submissions == w.submissions
      && (HasClaim(v, step.id) ==> v.calls[step.id].pc.claim == |w.claimCalls| && Backed(v, v.calls[step.id].r, |w.claimCalls|))
  {
    var v := Do(conns, w, step);
    assert v.claimCalls[..|w.claimCalls|] == w.claimCalls;
  }

  lemma OtherStillBacked(conns: Connections, w: World, step: Step, id: nat)
    requires Enabled(conns, w, step) && step.ClaimSignal? && Spent(w) && id != step.id && HasClaim(Do(conns, w, step), id)
    ensures HasClaim(w, id) && Do(conns, w, step).calls[id] == w.calls[id] && w.calls[id].pc.claim < |w.claimCalls|
    ensures Backed(Do(conns, w, step), w.calls[id].r, w.calls[id].pc.claim)
  {
    OthersUntouched(conns, w, step);
    BackedStays(conns, w, step, w.calls[id].r, w.calls[id].pc.claim);
  }

  lemma ClaimSpends(conns: Connections, w: World, step: Step)
    requires Enabled(conns, w, step) && step.ClaimSignal? && Spent(w)
    ensures Spent(Do(conns, w, step))
  {
    var v := Do(conns, w, step);
    ClaimStep(conns, w, step);
    forall id | HasClaim(v, id)
      ensures Backed(v, v.calls[id].r, v.calls[id].pc.claim)
      ensures id != step.id ==> HasClaim(w, id) && v.calls[id] == w.calls[id] && v.calls[id].pc.claim < |w.claimCalls|
    {
      if id != step.id {
        OtherStillBacked(conns, w, step, id);
      }
    }
    forall i | 0 <= i < |v.submissions|
      ensures Backed(v, v.submissions[i].routing, v.submissions[i].claim) && v.submissions[i].claim < |w.claimCalls|
    {
      BackedStays(conns, w, step, w.submissions[i].routing, w.submissions[i].claim);
    }
  }

  lemma StillClaims(conns: Connections, w: World, step: Step, id: nat)
    requires Enabled(conns, w, step) && !step.ClaimSignal? && HasClaim(Do(conns, w, step), id)
    ensures HasClaim(w, id) && Do(conns, w, step).calls[id] == w.calls[id] && Actor(step) != Some(id)
  {
    OthersUntouched(conns, w, step);
  }

  lemma SubmitSpends(conns: Connections, w: World, step: Step)
    requires Enabled(conns, w, step) && step.Execute? && Spent(w)
    ensures Spent(Do(conns, w, step))
  {
    var v := Do(conns, w, step);
    HistoryUntouched(conns, w, step);
    assert HasClaim(w, step.id);
    SubmitAdds(conns, w, step);
    forall id | HasClaim(v, id)
      ensures HasClaim(w, id) && v.calls[id] == w.calls[id] && id != step.id
    {
      StillClaims(conns, w, step, id);
    }
  }

  lemma SubmitAdds(conns: Connections, w: World, step: Step)
    requires Enabled(conns, w, step) && step.Execute?
    ensures Do(conns, w, step).submissions == w.submissions + [Submission(w.calls[step.id].r, w.calls[step.id].pc.claim)]
  {
  }

  lemma OtherSpends(conns: Connections, w: World, step: Step)
    requires Enabled(conns, w, step) && !step.ClaimSignal? && !step.Execute? && Spent(w)
    ensures Spent(Do(conns, w, step))
  {
    var v := Do(conns, w, step);
    HistoryUntouched(conns, w, step);
    forall id | HasClaim(v, id)
      ensures HasClaim(w, id) && v.calls[id] == w.calls[id]
    {
      StillClaims(conns, w, step, id);
    }
  }

  lemma SpentStep(conns: Connections, w: World, step: Step)
    requires Enabled(conns, w, step) && Spent(w)
    ensures Spent(Do(conns, w, step))
  {
    if step.ClaimSignal? {
      ClaimSpends(conns, w, step);
    } else if step.Execute? {
      SubmitSpends(conns, w, step);
    } else {
      OtherSpends(conns, w, step);
    }
  }

  // ---------------------------------------------------------------- causes and depth

  /** A child Run names an earlier finish of its parent, one level up. */
  predicate Caused(w: World, r: Routing) {
    if r.source.None? then r.depth == 0 && r.causedBy.None?
    else
      exists i | 0 <= i < |w.finished| ::
        w.finished[i].key == r.source.value && r.causedBy == Some(w.finished[i].runId) && r.depth == w.finished[i].depth + 1
        && r.depth <= MAX_CASCADE_DEPTH && r.signalId == FinishedId(w.finished[i].runId)
  }

  predicate CallDepth(c: Call): (b: bool) {
    match c
    case Route(r, pc) =>
      && r.depth <= MAX_CASCADE_DEPTH
      && (pc.Releasing? && pc.finish.Some? ==> pc.finish.value.depth <= MAX_CASCADE_DEPTH)
      && (pc.LettingGo? && pc.finish.Some? ==> pc.finish.value.depth <= MAX_CASCADE_DEPTH)
    case Submit(_, at) => at.Prepared? || at.Resuming? || at.Returned? || at.Settling? ==> at.depth <= MAX_CASCADE_DEPTH
  }

  ghost predicate Shallow(w: World) {
    && (forall id | id in w.calls :: CallDepth(w.calls[id]))
    && (forall key | key in w.entries :: w.entries[key].cascadeDepth <= MAX_CASCADE_DEPTH)
    && (forall key | key in Snapshot(w) :: Snapshot(w)[key].cascadeDepth <= MAX_CASCADE_DEPTH)
    && (forall i | 0 <= i < |w.finished| :: w.finished[i].depth <= MAX_CASCADE_DEPTH)
  }

  ghost predicate AllCaused(w: World) {
    && (forall id | RouteAt(w, id) :: Caused(w, w.calls[id].r))
    && (forall i | 0 <= i < |w.submissions| :: Caused(w, w.submissions[i].routing))
  }

  lemma ShallowMoved(conns: Connections, w: World, step: Step)
    requires Enabled(conns, w, step) && Shallow(w) && Actor(step).Some? && Moved(conns, w, step).Some?
    ensures CallDepth(Moved(conns, w, step).value)
  {
    if !Opens(step) {
      assert CallDepth(w.calls[step.id]);
    }
  }

  lemma ShallowCall(conns: Connections, w: World, step: Step, id: nat)
    requires Enabled(conns, w, step) && Shallow(w) && id in Do(conns, w, step).calls
    ensures CallDepth(Do(conns, w, step).calls[id])
  {
    if Actor(step) == Some(id) {
      ShallowMoved(conns, w, step);
    } else {
      OthersUntouched(conns, w, step);
    }
  }

  lemma ShallowEntries(conns: Connections, w: World, step: Step, key: Key)
    requires Enabled(conns, w, step) && Shallow(w) && key in Do(conns, w, step).entries
    ensures Do(conns, w, step).entries[key].cascadeDepth <= MAX_CASCADE_DEPTH
  {
    if step.Track? || step.Settle? {
      assert CallDepth(w.calls[step.id]);
    } else if step.SweepEntry? {
      SweptShallow(w.entries, step.key, step.seenStatus, step.now, key);
    } else {
      EntriesUntouched(conns, w, step);
    }
  }

  lemma SweptShallow(entries: P.Entries, key: Key, status: Observation, now: real, k: Key)
    requires k in SweptEntries(entries, key, status, now)
    ensures k in entries && SweptEntries(entries, key, status, now)[k].cascadeDepth == entries[k].cascadeDepth
  {
  }

  lemma ShallowSnapshot(conns: Connections, w: World, step: Step, key: Key)
    requires Enabled(conns, w, step) && Shallow(w) && key in Snapshot(Do(conns, w, step))
    ensures Snapshot(Do(conns, w, step))[key].cascadeDepth <= MAX_CASCADE_DEPTH
  {
    assert step.BeginSweep? || key in Snapshot(w);
  }

  lemma ShallowFinish(conns: Connections, w: World, step: Step, i: nat)
    requires Enabled(conns, w, step) && Shallow(w) && i < |Do(conns, w, step).finished|
    ensures Do(conns, w, step).finished[i].depth <= MAX_CASCADE_DEPTH
  {
    if Actor(step).Some? {
      assert step.id in w.calls ==> CallDepth(w.calls[step.id]);
    } else if step.SweepEntry? {
      assert step.key in Snapshot(w);
    }
  }

  lemma ShallowStep(conns: Connections, w: World, step: Step)
    requires Enabled(conns, w, step) && Shallow(w)
    ensures Shallow(Do(conns, w, step))
  {
    var v := Do(conns, w, step);
    forall id | id in v.calls
      ensures CallDepth(v.calls[id])
    {
      ShallowCall(conns, w, step, id);
    }
    forall key | key in v.entries
      ensures v.entries[key].cascadeDepth <= MAX_CASCADE_DEPTH
    {
      ShallowEntries(conns, w, step, key);
    }
    forall key | key in Snapshot(v)
      ensures Snapshot(v)[key].cascadeDepth <= MAX_CASCADE_DEPTH
    {
      ShallowSnapshot(conns, w, step, key);
    }
    forall i | 0 <= i < |v.finished|
      ensures v.finished[i].depth <= MAX_CASCADE_DEPTH
    {
      ShallowFinish(conns, w, step, i);
    }
  }

  lemma CausedStays(conns: Connections, w: World, step: Step, r: Routing)
    requires Enabled(conns, w, step) && Caused(w, r)
    ensures Caused(Do(conns, w, step), r)
  {
    FinishesGrow(conns, w, step);
    var v := Do(conns, w, step);
    assert forall i | 0 <= i < |w.finished| :: v.finished[i] == w.finished[i];
  }

  lemma CascadeCaused(conns: Connections, w: World, step: Step)
    requires Enabled(conns, w, step) && step.Cascade?
    ensures Caused(w, NewCall(w, step).r)
  {
    assert w.finished[step.i].key == NewCall(w, step).r.source.value;
  }

  /** A call keeps what it was opened for. */
  lemma RoutingStays(conns: Connections, w: World, step: Step, id: nat)
    requires Enabled(conns, w, step) && RouteAt(Do(conns, w, step), id)
    ensures
      var r := Do(conns, w, step).calls[id].r;
      (RouteAt(w, id) && w.calls[id].r == r) || ((step.Cascade? || step.RouteSignal?) && step.id == id && NewCall(w, step).r == r)
  {
    OthersUntouched(conns, w, step);
  }

  lemma CausedCall(conns: Connections, w: World, step: Step, id: nat)
    requires Enabled(conns, w, step) && AllCaused(w) && RouteAt(Do(conns, w, step), id)
    ensures Caused(Do(conns, w, step), Do(conns, w, step).calls[id].r)
  {
    RoutingStays(conns, w, step, id);
    if step.Cascade? {
      CascadeCaused(conns, w, step);
    }
    CausedStays(conns, w, step, Do(conns, w, step).calls[id].r);
  }

  lemma CausedStep(conns: Connections, w: World, step: Step)
    requires Enabled(conns, w, step) && AllCaused(w)
    ensures AllCaused(Do(conns, w, step))
  {
    var v := Do(conns, w, step);
    HistoryUntouched(conns, w, step);
    forall id | RouteAt(v, id)
      ensures Caused(v, v.calls[id].r)
    {
      CausedCall(conns, w, step, id);
    }
    forall i | 0 <= i < |v.submissions|
      ensures Caused(v, v.submissions[i].routing)
    {
      if i < |w.submissions| {
        CausedStays(conns, w, step, w.submissions[i].routing);
      } else {
        CausedStays(conns, w, step, w.calls[step.id].r);
      }
    }
  }

  // ---------------------------------------------------------------- every run

  ghost predicate Sound(w: World) {
    Known(w) && Spent(w) && Shallow(w) && AllCaused(w)
  }

  lemma SoundStart()
    ensures Sound(START)
  {
  }

  lemma {:induction false} SoundAlways(conns: Connections, trace: seq<World>, steps: seq<Step>, n: nat)
    requires Run(conns, trace, steps) && n <= |steps|
    ensures Sound(trace[n])
  {
    if n == 0 {
      SoundStart();
    } else {
      SoundAlways(conns, trace, steps, n - 1);
      KnownStep(conns, trace[n - 1], steps[n - 1]);
      SpentStep(conns, trace[n - 1], steps[n - 1]);
      ShallowStep(conns, trace[n - 1], steps[n - 1]);
      CausedStep(conns, trace[n - 1], steps[n - 1]);
    }
  }

  /** Immediate success, sweep and resumed success report one Thread under one run id, hence one Signal id. */
  lemma OneFinishIdPerThread(conns: Connections, trace: seq<World>, steps: seq<Step>, n: nat, i: nat, j: nat)
    requires Run(conns, trace, steps) && n <= |steps| && i < |trace[n].finished| && j < |trace[n].finished|
    requires trace[n].finished[i].key == trace[n].finished[j].key
    ensures FinishedId(trace[n].finished[i].runId) == FinishedId(trace[n].finished[j].runId)
  {
    SoundAlways(conns, trace, steps, n);
    assert FinishKnown(trace[n], trace[n].finished[i]) && FinishKnown(trace[n], trace[n].finished[j]);
  }

  /** Children of one Thread answer to one Signal id. */
  lemma OneSignalIdPerThread(w: World, i: nat, j: nat)
    requires Known(w) && AllCaused(w) && i < |w.submissions| && j < |w.submissions|
    requires w.submissions[i].routing.source.Some? && w.submissions[i].routing.source == w.submissions[j].routing.source
    ensures w.submissions[i].routing.signalId == w.submissions[j].routing.signalId
  {
    var r, q := w.submissions[i].routing, w.submissions[j].routing;
    assert Caused(w, r) && Caused(w, q);
    var k :| 0 <= k < |w.finished| && w.finished[k].key == r.source.value && r.signalId == FinishedId(w.finished[k].runId);
    var m :| 0 <= m < |w.finished| && w.finished[m].key == q.source.value && q.signalId == FinishedId(w.finished[m].runId);
    assert FinishKnown(w, w.finished[k]) && FinishKnown(w, w.finished[m]);
  }

  /**
   Any number of routes, sweeps and answers may report one logical Run finished; with a clock that
   never goes back, two children submitted for it are a whole retention window apart.
   */
  lemma OneChildPerWindow(conns: Connections, trace: seq<World>, steps: seq<Step>, n: nat, i: nat, j: nat)
    requires Run(conns, trace, steps) && n <= |steps| && D.ClockNeverGoesBack(trace[n].claimCalls)
    requires i < |trace[n].submissions| && j < |trace[n].submissions| && trace[n].submissions[i].claim < trace[n].submissions[j].claim
    requires trace[n].submissions[i].routing.source.Some?
    requires trace[n].submissions[i].routing.source == trace[n].submissions[j].routing.source
    ensures trace[n].submissions[j].routing.now - trace[n].submissions[i].routing.now >= D.DEFAULT_RETENTION
  {
    var w := trace[n];
    SoundAlways(conns, trace, steps, n);
    OneSignalIdPerThread(w, i, j);
    BackedApart(w, w.submissions[i], w.submissions[j]);
  }

  lemma BackedApart(w: World, a: Submission, b: Submission)
    requires Backed(w, a.routing, a.claim) && Backed(w, b.routing, b.claim) && a.routing.signalId == b.routing.signalId && a.claim < b.claim
    requires D.ClockNeverGoesBack(w.claimCalls)
    ensures b.routing.now - a.routing.now >= D.DEFAULT_RETENTION
  {
    D.SuccessesAreAWindowApart(w.claimCalls, a.claim, b.claim, D.DEFAULT_RETENTION);
  }

  /** No submission shares its Signal claim, so submissions of one Signal are ordered by their claims. */
  lemma SubmissionsAreOrdered(conns: Connections, trace: seq<World>, steps: seq<Step>, n: nat, i: nat, j: nat)
    requires Run(conns, trace, steps) && n <= |steps| && i < j < |trace[n].submissions|
    ensures trace[n].submissions[i].claim != trace[n].submissions[j].claim
  {
    SoundAlways(conns, trace, steps, n);
  }

  /** Over every history no submitted Run, tracked entry or finish is deeper than the bound, and each child is one level below a finish recorded earlier. */
  lemma CascadesAreBounded(conns: Connections, trace: seq<World>, steps: seq<Step>, n: nat)
    requires Run(conns, trace, steps) && n <= |steps|
    ensures forall i | 0 <= i < |trace[n].submissions| :: trace[n].submissions[i].routing.depth <= MAX_CASCADE_DEPTH
    ensures forall i | 0 <= i < |trace[n].submissions| :: Caused(trace[n], trace[n].submissions[i].routing)
    ensures forall key | key in trace[n].entries :: trace[n].entries[key].cascadeDepth <= MAX_CASCADE_DEPTH
    ensures forall i | 0 <= i < |trace[n].finished| :: trace[n].finished[i].depth <= MAX_CASCADE_DEPTH
  {
    SoundAlways(conns, trace, steps, n);
    forall i | 0 <= i < |trace[n].submissions|
      ensures trace[n].submissions[i].routing.depth <= MAX_CASCADE_DEPTH
    {
      assert Caused(trace[n], trace[n].submissions[i].routing);
    }
  }
}

/** A running Deployment counts at least the calls and tracked Runs that use it. */
module ProtocolActivity {
  import opened Basics
  import opened Protocol
  import opened ProtocolFrames
  import C = Concurrency
  import L = DeploymentLifecycle
  import P = PendingCompletions

  datatype Holder = InFlight(id: nat) | Tracked(key: Key)

  /** Whether a call is between taking its activity claim and giving it back or handing it over. */
  predicate CallHolds(c: Call, alias: string) {
    match c
    case Route(r, pc) =>
      && r.alias == alias
      && (pc.DeploymentReady? || pc.Admitted? || pc.Executing? || pc.Executed? || (pc.Releasing? && pc.tookActive && !pc.retain))
    case Submit(q, at) => q.slot.deployment == alias && !at.Opening?
  }

  predicate EntryHeld(entries: P.Entries, key: Key) {
    key in entries && entries[key].deploymentHeld
  }

  /** A tracked Thread holds through its entry, or through what a sweep read of it and has not acted on. */
  predicate KeyHolds(w: World, key: Key) {
    EntryHeld(w.entries, key) || (w.sweep.Some? && EntryHeld(w.sweep.value, key))
  }

  predicate Holds(w: World, alias: string, h: Holder) {
    match h
    case InFlight(id) => id in w.calls && CallHolds(w.calls[id], alias)
    case Tracked(key) => key.deployment == alias && KeyHolds(w, key)
  }

  function Holders(w: World, alias: string): (s: set<Holder>)
    ensures forall h :: h in s <==> Holds(w, alias, h)
  {
    (set id | id in w.calls && CallHolds(w.calls[id], alias) :: InFlight(id))
    + (set key | key in w.entries && key.deployment == alias && KeyHolds(w, key) :: Tracked(key))
    + (if w.sweep.Some? then set key | key in w.sweep.value && key.deployment == alias && KeyHolds(w, key) :: Tracked(key) else {})
  }

  predicate IsRunning(w: World, alias: string) {
    alias in w.records && w.records[alias].status.Running?
  }

  /** The claim counter covers every holder; without holders, any record will do. */
  predicate Covered(w: World, alias: string) {
    |Holders(w, alias)| == 0 || (IsRunning(w, alias) && w.records[alias].activeRuns >= |Holders(w, alias)|)
  }

  predicate AllCovered(conns: Connections, w: World) {
    forall alias | alias in conns && conns[alias].Managed() :: Covered(w, alias)
  }

  // ---------------------------------------------------------------- counting

  lemma SwapSize<T>(a: set<T>, b: set<T>, g: T, k: T)
    requires g in a && b <= a - {g} + {k}
    ensures |b| <= |a|
  {
    SubsetSize(b, a - {g} + {k});
    assert |a - {g}| == |a| - 1;
  }

  lemma Shrinks(v: World, w: World, alias: string)
    requires forall h | Holds(w, alias, h) :: Holds(v, alias, h)
    ensures |Holders(w, alias)| <= |Holders(v, alias)|
  {
    SubsetSize(Holders(w, alias), Holders(v, alias));
  }

  lemma Loses(v: World, w: World, alias: string, g: Holder)
    requires Holds(v, alias, g) && forall h | Holds(w, alias, h) :: h != g && Holds(v, alias, h)
    ensures |Holders(w, alias)| <= |Holders(v, alias)| - 1
  {
    SubsetSize(Holders(w, alias) + {g}, Holders(v, alias));
  }

  lemma Gains(v: World, w: World, alias: string, g: Holder)
    requires forall h | Holds(w, alias, h) :: h == g || Holds(v, alias, h)
    ensures |Holders(w, alias)| <= |Holders(v, alias)| + 1
  {
    SubsetSize(Holders(w, alias), Holders(v, alias) + {g});
  }

  lemma HandsOver(v: World, w: World, alias: string, g: Holder, k: Holder)
    requires Holds(v, alias, g) && forall h | Holds(w, alias, h) :: h == k || (h != g && Holds(v, alias, h))
    ensures |Holders(w, alias)| <= |Holders(v, alias)|
  {
    var a, b := Holders(v, alias), Holders(w, alias);
    assert b <= a - {g} + {k};
    SwapSize(a, b, g, k);
  }

  lemma SameHolders(v: World, w: World, alias: string)
    requires forall h :: Holds(w, alias, h) <==> Holds(v, alias, h)
    ensures |Holders(w, alias)| == |Holders(v, alias)|
  {
    assert Holders(w, alias) == Holders(v, alias);
  }

  // ---------------------------------------------------------------- one step

  /** A liveness probe that finds a running record's process dead; its relaunch restarts the count at 1. */
  predicate Relaunches(conns: Connections, w: World, step: Step)
    requires Enabled(conns, w, step)
  {
    step.Start? && !step.probe.alive &&
    var c := w.calls[step.id];
    IsRunning(w, if c.Route? then c.r.alias else c.q.slot.deployment)
  }

  /** A call whose own launch failed, about to give back a claim it never took. */
  predicate ReleasesUnclaimed(conns: Connections, w: World, step: Step)
    requires Enabled(conns, w, step)
  {
    step.ReleaseActive? && w.calls[step.id].Route? && !w.calls[step.id].pc.tookActive && !w.calls[step.id].pc.retain
    && w.calls[step.id].r.alias in conns && conns[w.calls[step.id].r.alias].Managed()
  }

  /** That release strikes a Deployment someone else has started since and whose every claim is in use. */
  predicate StealsClaim(conns: Connections, w: World, step: Step)
    requires Enabled(conns, w, step)
  {
    ReleasesUnclaimed(conns, w, step) &&
    var alias := w.calls[step.id].r.alias;
    IsRunning(w, alias) && 0 < |Holders(w, alias)| == w.records[alias].activeRuns
  }

  /** Steps that leave every record alone and add no holder. */
  ghost predicate NoNewHolder(v: World, w: World) {
    w.records == v.records && forall alias, h :: Holds(w, alias, h) ==> Holds(v, alias, h)
  }

  lemma QuietKeeps(conns: Connections, v: World, w: World)
    requires AllCovered(conns, v) && NoNewHolder(v, w)
    ensures AllCovered(conns, w)
  {
    forall alias | alias in conns && conns[alias].Managed()
      ensures Covered(w, alias)
    {
      assert Covered(v, alias);
      Shrinks(v, w, alias);
    }
  }

  predicate Quiet(step: Step) {
    step.RouteSignal? || step.Cascade? || step.ClaimPair? || step.ClaimSignal? || step.Execute? || step.ExecuteFails? || step.ExecuteReturns?
    || step.ReleasePair? || step.Respond? || step.ClaimAnswer? || step.ReadState? || step.Authorize? || step.ReadPending? || step.Resume?
    || step.ResumeFails? || step.ResumeReturns? || step.RecordResumed? || step.Vanish? || step.BeginSweep? || step.EndSweep?
  }

  lemma QuietStep(conns: Connections, w: World, step: Step)
    requires Enabled(conns, w, step) && Quiet(step)
    ensures NoNewHolder(w, Do(conns, w, step))
  {
    var v := Do(conns, w, step);
    forall alias, h | Holds(v, alias, h)
      ensures Holds(w, alias, h)
    {
      if h.Tracked? {
        assert v.entries == w.entries;
      }
    }
  }

  /** A start adds its own call, once the Deployment runs, and nobody else. */
  lemma StartHolders(conns: Connections, w: World, step: Step, alias: string)
    requires Enabled(conns, w, step) && step.Start?
    ensures
      var v, mine := Do(conns, w, step), Alias(w.calls[step.id]) == alias && !StartResult(conns, w, step).FailedToStart?;
      forall h | Holds(v, alias, h) :: Holds(w, alias, h) || (mine && h == InFlight(step.id))
  {
    var v := Do(conns, w, step);
    assert v.entries == w.entries && v.sweep == w.sweep;
  }

  /** Unless the record is relaunched, a start counts itself and forgets nobody. */
  lemma StartCounts(conns: Connections, w: World, step: Step, alias: string)
    requires Enabled(conns, w, step) && step.Start? && !Relaunches(conns, w, step) && alias in conns && conns[alias].Managed()
    ensures
      var v, mine := Do(conns, w, step), Alias(w.calls[step.id]) == alias && !StartResult(conns, w, step).FailedToStart?;
      && (mine ==> IsRunning(v, alias) && v.records[alias].activeRuns == (if IsRunning(w, alias) then w.records[alias].activeRuns else 0) + 1)
      && (!mine && IsRunning(w, alias) ==> IsRunning(v, alias) && v.records[alias].activeRuns == w.records[alias].activeRuns)
  {
  }

  lemma StartCovers(conns: Connections, w: World, id: nat, probe: L.Probe, alias: string)
    requires Enabled(conns, w, Start(id, probe)) && !Relaunches(conns, w, Start(id, probe))
    requires alias in conns && conns[alias].Managed() && Covered(w, alias)
    ensures Covered(Do(conns, w, Start(id, probe)), alias)
  {
    var step := Start(id, probe);
    var v := Do(conns, w, step);
    StartHolders(conns, w, step, alias);
    StartCounts(conns, w, step, alias);
    if Alias(w.calls[id]) == alias && !StartResult(conns, w, step).FailedToStart? {
      Gains(w, v, alias, InFlight(id));
    } else {
      Shrinks(w, v, alias);
    }
  }

  /** A Thread belongs to the Deployment its execution went to. */
  ghost predicate ThreadsAtHome(w: World) {
    forall id | RouteAt(w, id) && w.calls[id].pc.Executed? :: w.calls[id].pc.key.deployment == w.calls[id].r.alias
  }

  lemma HomeStep(conns: Connections, w: World, step: Step)
    requires Enabled(conns, w, step) && ThreadsAtHome(w)
    ensures ThreadsAtHome(Do(conns, w, step))
  {
    var v := Do(conns, w, step);
    forall id | RouteAt(v, id) && v.calls[id].pc.Executed?
      ensures v.calls[id].pc.key.deployment == v.calls[id].r.alias
    {
      assert step.ExecuteReturns? || (RouteAt(w, id) && v.calls[id] == w.calls[id]);
    }
  }

  /** A Run that is still running takes over its call's hold; any other outcome adds none. */
  lemma TrackHolders(conns: Connections, w: World, step: Step, alias: string, h: Holder)
    requires Enabled(conns, w, step) && step.Track? && Holds(Do(conns, w, step), alias, h)
    ensures
      var c := w.calls[step.id];
      || (Holds(w, alias, h) && (h == InFlight(step.id) ==> !c.pc.outcome.StillRunning?))
      || (h == Tracked(c.pc.key) && c.pc.outcome.StillRunning? && alias == c.pc.key.deployment)
  {
    SweepUntouched(conns, w, step);
    OthersUntouched(conns, w, step);
  }

  lemma TrackCovers(conns: Connections, w: World, id: nat, alias: string)
    requires Enabled(conns, w, Track(id)) && Covered(w, alias) && ThreadsAtHome(w)
    ensures Covered(Do(conns, w, Track(id)), alias)
  {
    var v, c := Do(conns, w, Track(id)), w.calls[id];
    RecordsUntouched(conns, w, Track(id));
    forall h | Holds(v, alias, h)
      ensures (Holds(w, alias, h) && (h == InFlight(id) ==> !c.pc.outcome.StillRunning?))
              || (h == Tracked(c.pc.key) && c.pc.outcome.StillRunning? && alias == c.pc.key.deployment)
    {
      TrackHolders(conns, w, Track(id), alias, h);
    }
    if c.pc.outcome.StillRunning? && alias == c.r.alias {
      HandsOver(w, v, alias, InFlight(id), Tracked(c.pc.key));
    } else {
      Shrinks(w, v, alias);
    }
  }

  lemma SettleCovers(conns: Connections, w: World, id: nat, alias: string)
    requires Enabled(conns, w, Settle(id)) && Covered(w, alias)
    ensures Covered(Do(conns, w, Settle(id)), alias)
  {
    var v, c := Do(conns, w, Settle(id)), w.calls[id];
    assert v.records == w.records && v.sweep == w.sweep;
    if c.at.outcome.DeadlineReached? && alias == c.q.slot.deployment {
      HandsOver(w, v, alias, InFlight(id), Tracked(KeyOf(c.q.slot)));
    } else {
      Shrinks(w, v, alias);
    }
  }

  /** A release ends its own call's hold, if it had one. */
  lemma ReleaseHolders(conns: Connections, w: World, step: Step, alias: string)
    requires Enabled(conns, w, step) && step.ReleaseActive?
    ensures forall h :: Holds(Do(conns, w, step), alias, h) <==> Holds(w, alias, h) && h != InFlight(step.id)
  {
    var v := Do(conns, w, step);
    assert v.entries == w.entries && v.sweep == w.sweep;
  }

  lemma ReleaseCounts(conns: Connections, w: World, step: Step, alias: string)
    requires Enabled(conns, w, step) && step.ReleaseActive? && alias in conns && conns[alias].Managed()
    ensures
      var v, c := Do(conns, w, step), w.calls[step.id];
      var drops := Alias(c) == alias && !(c.Route? && c.pc.retain);
      && (IsRunning(v, alias) <==> IsRunning(w, alias))
      && (IsRunning(w, alias) ==>
            v.records[alias].activeRuns == if drops then Max(0, w.records[alias].activeRuns - 1) else w.records[alias].activeRuns)
  {
  }

  lemma ReleaseHeld(conns: Connections, w: World, id: nat, alias: string)
    requires Enabled(conns, w, ReleaseActive(id)) && alias in conns && conns[alias].Managed() && Covered(w, alias)
    requires CallHolds(w.calls[id], alias)
    ensures Covered(Do(conns, w, ReleaseActive(id)), alias)
  {
    ReleaseHolders(conns, w, ReleaseActive(id), alias);
    ReleaseCounts(conns, w, ReleaseActive(id), alias);
    Loses(w, Do(conns, w, ReleaseActive(id)), alias, InFlight(id));
  }

  lemma ReleaseElsewhere(conns: Connections, w: World, id: nat, alias: string)
    requires Enabled(conns, w, ReleaseActive(id)) && alias in conns && conns[alias].Managed() && Covered(w, alias)
    requires Alias(w.calls[id]) != alias
    ensures Covered(Do(conns, w, ReleaseActive(id)), alias)
  {
    ReleaseHolders(conns, w, ReleaseActive(id), alias);
    ReleaseCounts(conns, w, ReleaseActive(id), alias);
    SameHolders(w, Do(conns, w, ReleaseActive(id)), alias);
  }

  lemma ReleaseUnheld(conns: Connections, w: World, id: nat, alias: string)
    requires Enabled(conns, w, ReleaseActive(id)) && alias in conns && conns[alias].Managed() && Covered(w, alias)
    requires !CallHolds(w.calls[id], alias) && Alias(w.calls[id]) == alias
    ensures Covered(Do(conns, w, ReleaseActive(id)), alias) <==> !StealsClaim(conns, w, ReleaseActive(id))
  {
    ReleaseHolders(conns, w, ReleaseActive(id), alias);
    ReleaseCounts(conns, w, ReleaseActive(id), alias);
    SameHolders(w, Do(conns, w, ReleaseActive(id)), alias);
  }

  lemma HolderStealsNothing(conns: Connections, w: World, id: nat, alias: string)
    requires Enabled(conns, w, ReleaseActive(id)) && CallHolds(w.calls[id], alias)
    ensures !StealsClaim(conns, w, ReleaseActive(id))
  {
  }

  lemma ReleaseCovers(conns: Connections, w: World, id: nat, alias: string)
    requires Enabled(conns, w, ReleaseActive(id)) && alias in conns && conns[alias].Managed() && Covered(w, alias)
    ensures Covered(Do(conns, w, ReleaseActive(id)), alias)
            <==> !(StealsClaim(conns, w, ReleaseActive(id)) && w.calls[id].r.alias == alias)
  {
    if CallHolds(w.calls[id], alias) {
      ReleaseHeld(conns, w, id, alias);
      HolderStealsNothing(conns, w, id, alias);
    } else if Alias(w.calls[id]) == alias {
      ReleaseUnheld(conns, w, id, alias);
    } else {
      ReleaseElsewhere(conns, w, id, alias);
    }
  }

  lemma SweepCounts(conns: Connections, w: World, step: Step, alias: string)
    requires Enabled(conns, w, step) && step.SweepEntry? && alias in conns && conns[alias].Managed()
    ensures
      var v := Do(conns, w, step);
      var drops := GivesBack(w, step) && step.key.deployment == alias;
      && (IsRunning(v, alias) <==> IsRunning(w, alias))
      && (IsRunning(w, alias) ==>
            v.records[alias].activeRuns == if drops then Max(0, w.records[alias].activeRuns - 1) else w.records[alias].activeRuns)
  {
  }

  predicate GivesBack(w: World, step: Step)
    requires step.SweepEntry? && w.sweep.Some? && step.key in w.sweep.value
  {
    w.sweep.value[step.key].deploymentHeld && Settles(step.seenStatus)
  }

  lemma SweepCovers(conns: Connections, w: World, step: Step, alias: string)
    requires Enabled(conns, w, step) && step.SweepEntry? && alias in conns && conns[alias].Managed() && Covered(w, alias)
    ensures Covered(Do(conns, w, step), alias)
  {
    var v := Do(conns, w, step);
    SweepHolders(conns, w, step, alias);
    SweepCounts(conns, w, step, alias);
    if GivesBack(w, step) && step.key.deployment == alias {
      Loses(w, v, alias, Tracked(step.key));
    } else {
      Shrinks(w, v, alias);
    }
  }

  /** A sweep adds no holder, and acting on an entry ends every hold of its Thread. */
  lemma SweepHolders(conns: Connections, w: World, step: Step, alias: string)
    requires Enabled(conns, w, step) && step.SweepEntry?
    ensures forall h | Holds(Do(conns, w, step), alias, h) :: Holds(w, alias, h) && (h == Tracked(step.key) ==> !Settles(step.seenStatus))
  {
  }

  lemma IdleCovers(conns: Connections, w: World, now: real, alias: string)
    requires Covered(w, alias)
    ensures Covered(Do(conns, w, StopIdle(now)), alias)
  {
    var v := Do(conns, w, StopIdle(now));
    StopKeepsHolders(conns, w, now, alias);
    SameHolders(w, v, alias);
    StopKeepsCount(conns, w, now, alias);
  }

  lemma StopKeepsHolders(conns: Connections, w: World, now: real, alias: string)
    ensures forall h :: Holds(Do(conns, w, StopIdle(now)), alias, h) <==> Holds(w, alias, h)
  {
    var v := Do(conns, w, StopIdle(now));
    assert v.entries == w.entries && v.sweep == w.sweep && v.calls == w.calls;
  }

  lemma StopKeepsCount(conns: Connections, w: World, now: real, alias: string)
    ensures
      var v := Do(conns, w, StopIdle(now));
      IsRunning(w, alias) && w.records[alias].activeRuns > 0 ==> IsRunning(v, alias) && v.records[alias] == w.records[alias]
  {
  }

  /** What an idle sweep stops, nobody uses. */
  lemma StopsUnused(conns: Connections, w: World, now: real, alias: string)
    requires Covered(w, alias) && L.Idle(w.records, alias, conns, now)
    ensures forall h :: !Holds(w, alias, h)
  {
    assert Holders(w, alias) == {};
  }

  /**
   Without a crash relaunch, a step keeps every running Deployment covered exactly when it does not
   give back, for a call whose own launch failed, a claim that another holder needs.
   */
  lemma CoverStep(conns: Connections, w: World, step: Step)
    requires Enabled(conns, w, step) && !Relaunches(conns, w, step) && AllCovered(conns, w) && ThreadsAtHome(w)
    ensures AllCovered(conns, Do(conns, w, step)) <==> !StealsClaim(conns, w, step)
  {
    if Quiet(step) {
      QuietStep(conns, w, step);
      QuietKeeps(conns, w, Do(conns, w, step));
    } else {
      forall alias | alias in conns && conns[alias].Managed()
        ensures Covered(Do(conns, w, step), alias) <==> !(StealsClaim(conns, w, step) && w.calls[step.id].r.alias == alias)
      {
        assert Covered(w, alias);
        LoudStep(conns, w, step, alias);
      }
    }
  }

  lemma LoudStep(conns: Connections, w: World, step: Step, alias: string)
    requires Enabled(conns, w, step) && !Quiet(step) && !Relaunches(conns, w, step) && ThreadsAtHome(w)
    requires alias in conns && conns[alias].Managed() && Covered(w, alias)
    ensures Covered(Do(conns, w, step), alias) <==> !(StealsClaim(conns, w, step) && w.calls[step.id].r.alias == alias)
  {
    match step
    case Start(id, probe) => StartCovers(conns, w, id, probe, alias);
    case Track(id) => TrackCovers(conns, w, id, alias);
    case Settle(id) => SettleCovers(conns, w, id, alias);
    case ReleaseActive(id) => ReleaseCovers(conns, w, id, alias);
    case SweepEntry(_, _, _) => SweepCovers(conns, w, step, alias);
    case StopIdle(now) => IdleCovers(conns, w, now, alias);
  }

  // ---------------------------------------------------------------- every run

  ghost predicate NoRelaunch(conns: Connections, trace: seq<World>, steps: seq<Step>)
    requires Run(conns, trace, steps)
  {
    forall i | 0 <= i < |steps| :: !Relaunches(conns, trace[i], steps[i])
  }

  lemma {:induction false} HomeAlways(conns: Connections, trace: seq<World>, steps: seq<Step>, n: nat)
    requires Run(conns, trace, steps) && n <= |steps|
    ensures ThreadsAtHome(trace[n])
  {
    if n > 0 {
      HomeAlways(conns, trace, steps, n - 1);
      HomeStep(conns, trace[n - 1], steps[n - 1]);
    }
  }

  lemma StartIsCovered(conns: Connections)
    ensures AllCovered(conns, START)
  {
    forall alias | alias in conns && conns[alias].Managed()
      ensures Covered(START, alias)
    {
      assert Holders(START, alias) == {};
    }
  }

  lemma CoverAt(conns: Connections, trace: seq<World>, steps: seq<Step>, i: nat)
    requires Run(conns, trace, steps) && NoRelaunch(conns, trace, steps) && i < |steps| && AllCovered(conns, trace[i])
    ensures AllCovered(conns, trace[i + 1]) <==> !StealsClaim(conns, trace[i], steps[i])
  {
    HomeAlways(conns, trace, steps, i);
    CoverStep(conns, trace[i], steps[i]);
  }

  /**
   In every interleaving without a crash relaunch, each running Deployment counts at least its
   in-flight calls plus its tracked Runs throughout, exactly when no call whose own launch failed
   gives back a claim that is in use.
   */
  lemma ActivityIsCovered(conns: Connections, trace: seq<World>, steps: seq<Step>)
    requires Run(conns, trace, steps) && NoRelaunch(conns, trace, steps)
    ensures (forall i | 0 <= i <= |steps| :: AllCovered(conns, trace[i]))
            <==> (forall i | 0 <= i < |steps| :: !StealsClaim(conns, trace[i], steps[i]))
  {
    StartIsCovered(conns);
    if forall i | 0 <= i <= |steps| :: AllCovered(conns, trace[i]) {
      forall i | 0 <= i < |steps|
        ensures !StealsClaim(conns, trace[i], steps[i])
      {
        CoverAt(conns, trace, steps, i);
        assert AllCovered(conns, trace[i + 1]);
      }
    }
    if forall i | 0 <= i < |steps| :: !StealsClaim(conns, trace[i], steps[i]) {
      for n := 0 to |steps|
        invariant forall i | 0 <= i <= n :: AllCovered(conns, trace[i])
      {
        CoverAt(conns, trace, steps, n);
      }
    }
  }

  /** So an idle sweep stops no Deployment that a live call or a tracked Run still uses. */
  lemma IdleSweepIsSafe(conns: Connections, trace: seq<World>, steps: seq<Step>, i: nat, alias: string)
    requires Run(conns, trace, steps) && NoRelaunch(conns, trace, steps)
    requires forall j | 0 <= j < |steps| :: !StealsClaim(conns, trace[j], steps[j])
    requires i < |steps| && steps[i].StopIdle? && L.Idle(trace[i].records, alias, conns, steps[i].now)
    ensures forall h :: !Holds(trace[i], alias, h)
  {
    ActivityIsCovered(conns, trace, steps);
    assert AllCovered(conns, trace[i]);
    StopsUnused(conns, trace[i], steps[i].now, alias);
  }

  // ---------------------------------------------------------------- when it fails

  ghost predicate QuietRun(conns: Connections, trace: seq<World>, steps: seq<Step>) {
    Run(conns, trace, steps) && NoRelaunch(conns, trace, steps)
  }

  lemma Extend(conns: Connections, trace: seq<World>, steps: seq<Step>, step: Step, next: World) returns (t: seq<World>, s: seq<Step>)
    requires QuietRun(conns, trace, steps) && Enabled(conns, Last(trace), step) && next == Do(conns, Last(trace), step)
    requires !Relaunches(conns, Last(trace), step)
    ensures QuietRun(conns, t, s) && Last(t) == next
  {
    t, s := trace + [next], steps + [step];
    forall i | 0 <= i < |s|
      ensures Enabled(conns, t[i], s[i]) && t[i + 1] == Do(conns, t[i], s[i]) && !Relaunches(conns, t[i], s[i])
    {
      if i < |steps| {
        assert t[i] == trace[i] && t[i + 1] == trace[i + 1] && s[i] == steps[i];
      }
    }
  }

  const SHARED: Connections := map["d" := L.Connection(Some("serve"), None)]
  const FIRST: Routing := Routing("s", None, None, "d", C.Pair("a", "x"), 0, 0.0, 180.0)
  const SECOND: Routing := Routing("t", None, None, "d", C.Pair("a", "y"), 0, 0.0, 180.0)

  const OPENED: World := START.(calls := map[0 := Route(FIRST, Matched), 1 := Route(SECOND, Matched)])

  /** Both calls hold their pairs. */
  const BOTH: World := OPENED.(calls := map[0 := Route(FIRST, HoldsPair), 1 := Route(SECOND, HoldsPair)],
                               claims := map[FIRST.pair := 0.0, SECOND.pair := 0.0])

  /** The first launch has failed, the second has succeeded. */
  const LAUNCHED: World := BOTH.(calls := map[0 := Route(FIRST, Releasing(false, false, None)), 1 := Route(SECOND, DeploymentReady)],
                                 records := map["d" := L.Record(L.Running, Some(7), 1, 0.0, None)])

  lemma RaceNames()
    ensures FIRST.pair.Named() && SECOND.pair.Named() && !Blank(FIRST.signalId) && !Blank(SECOND.signalId) && Registered(SHARED, "d")
  {
    assert "d"[0] == 'd' && "a"[0] == 'a' && "x"[0] == 'x' && "y"[0] == 'y' && "s"[0] == 's' && "t"[0] == 't';
  }

  lemma RaceOpens() returns (t: seq<World>, s: seq<Step>)
    ensures QuietRun(SHARED, t, s) && Last(t) == OPENED
  {
    RaceNames();
    var w1 := START.(calls := map[0 := Route(FIRST, Matched)]);
    t, s := Extend(SHARED, [START], [], RouteSignal(0, FIRST.signalId, "d", FIRST.pair, 0.0, 180.0), w1);
    t, s := Extend(SHARED, t, s, RouteSignal(1, SECOND.signalId, "d", SECOND.pair, 0.0, 180.0), OPENED);
  }

  lemma RaceClaims() returns (t: seq<World>, s: seq<Step>)
    ensures QuietRun(SHARED, t, s) && Last(t) == BOTH
  {
    t, s := RaceOpens();
    var w3 := OPENED.(calls := OPENED.calls[0 := Route(FIRST, HoldsPair)], claims := map[FIRST.pair := 0.0]);
    t, s := Extend(SHARED, t, s, ClaimPair(0), w3);
    t, s := Extend(SHARED, t, s, ClaimPair(1), BOTH);
  }

  const REFUSED: World := BOTH.(calls := BOTH.calls[0 := Route(FIRST, Releasing(false, false, None))],
                                records := map["d" := L.Record(L.StartFailed, None, 0, 0.0, Some("refused"))])

  lemma RaceRefused() returns (t: seq<World>, s: seq<Step>)
    ensures QuietRun(SHARED, t, s) && Last(t) == REFUSED
  {
    t, s := RaceClaims();
    t, s := Extend(SHARED, t, s, Start(0, L.Probe(false, Err("refused"), false)), REFUSED);
  }

  lemma RaceLaunches() returns (t: seq<World>, s: seq<Step>)
    ensures QuietRun(SHARED, t, s) && Last(t) == LAUNCHED
  {
    t, s := RaceRefused();
    t, s := Extend(SHARED, t, s, Start(1, L.Probe(false, Ok(7), true)), LAUNCHED);
  }

  /**
   Two Signals race for one stopped Deployment; the first launch fails, the second succeeds. The
   first call's clean-up takes the second call's claim, and an idle sweep stops the Deployment under it.
   */
  lemma FailedLaunchStealsAClaim() returns (trace: seq<World>, steps: seq<Step>)
    ensures Run(SHARED, trace, steps) && NoRelaunch(SHARED, trace, steps)
    ensures Holds(Last(trace), "d", InFlight(1)) && L.Idle(Last(trace).records, "d", SHARED, 600.0)
  {
    trace, steps := RaceLaunches();
    var w7 := LAUNCHED.(calls := LAUNCHED.calls[0 := Route(FIRST, LettingGo(false, None))],
                        records := map["d" := L.Record(L.Running, Some(7), 0, 0.0, None)]);
    trace, steps := Extend(SHARED, trace, steps, ReleaseActive(0), w7);
  }
}

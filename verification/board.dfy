/**
 The stores of one board directory as objects, and the store accesses of a routed Signal, a
 submitted answer and a sweep as methods. Each access is one step of the protocol, so whatever
 order calls make them in is one of its runs.
 */
module Board {
  import opened Basics
  import opened Protocol
  import C = Concurrency
  import L = DeploymentLifecycle
  import P = PendingCompletions
  import D = SignalDedupe
  import R = ResponseDedupe
  import K = RunContinuity

  class Stores {
    const conns: Connections
    const concurrency: C.ConcurrencyStore
    const lifecycle: L.LifecycleStore
    const signals: D.SignalDedupeStore
    const answers: R.ResponseDedupeStore
    const pending: P.PendingStore
    const continuity: K.ContinuityStore
    ghost var world: World
    ghost var trace: seq<World>
    ghost var log: seq<Step>

    ghost predicate Logged()
      reads this
    {
      Run(conns, trace, log) && Last(trace) == world
    }

    ghost predicate Synced()
      reads this, concurrency, lifecycle, signals, answers, pending, continuity
    {
      && concurrency.claims == world.claims && lifecycle.data == world.records && signals.data == world.signals
      && answers.records == world.answers && pending.entries == world.entries && continuity.records == world.threads
    }

    ghost predicate Valid()
      reads this, concurrency, lifecycle, signals, answers, pending, continuity
    {
      Logged() && Synced()
    }

    constructor (conns: Connections)
      ensures Valid() && world == START && this.conns == conns
      ensures fresh(concurrency) && fresh(lifecycle) && fresh(signals) && fresh(answers) && fresh(pending) && fresh(continuity)
    {
      this.conns := conns;
      concurrency := new C.ConcurrencyStore();
      lifecycle := new L.LifecycleStore();
      signals := new D.SignalDedupeStore();
      answers := new R.ResponseDedupeStore();
      pending := new P.PendingStore();
      continuity := new K.ContinuityStore();
      world, trace, log := START, [START], [];
    }

    ghost method Log(step: Step)
      requires Logged() && Enabled(conns, world, step)
      modifies this
      ensures Logged() && world == Do(conns, old(world), step)
    {
      world := Do(conns, world, step);
      RunGrows(conns, trace, log, step);
      trace, log := trace + [world], log + [step];
    }

    // ---------------------------------------------------------------- route_signal's accesses

    method ClaimPairStep(ghost id: nat, r: Routing) returns (claimed: bool)
      requires Valid() && RouteAt(world, id) && world.calls[id] == Route(r, Matched) && r.pair.Named()
      modifies this, concurrency
      ensures Valid() && world == Do(conns, old(world), ClaimPair(id))
      ensures claimed == !C.Live(old(concurrency.claims), r.pair, r.now, r.staleAfter)
    {
      var result := concurrency.TryClaim(r.pair, r.now, r.staleAfter);
      claimed := result.value;
      Log(ClaimPair(id));
    }

    method StartStep(ghost id: nat, alias: string, now: real, probe: L.Probe) returns (started: L.Started)
      requires Valid() && Enabled(conns, world, Start(id, probe)) && Alias(world.calls[id]) == alias && Time(world.calls[id]) == now
      modifies this, lifecycle
      ensures Valid() && world == Do(conns, old(world), Start(id, probe))
      ensures started == StartResult(conns, old(world), Start(id, probe))
    {
      started := lifecycle.Start(alias, Conn(conns, alias), now, probe);
      Log(Start(id, probe));
    }

    method ClaimSignalStep(ghost id: nat, r: Routing) returns (claimed: bool)
      requires Valid() && Enabled(conns, world, ClaimSignal(id)) && world.calls[id].r == r && !Blank(r.signalId)
      modifies this, signals
      ensures Valid() && world == Do(conns, old(world), ClaimSignal(id))
      ensures claimed == !D.Remembered(old(signals.data), r.signalId, r.now, D.DEFAULT_RETENTION)
    {
      var result := signals.Claim(r.signalId, r.now, D.DEFAULT_RETENTION);
      claimed := result.value;
      Log(ClaimSignal(id));
    }

    method ExecuteReturnsStep(ghost id: nat, key: Key, run: string, outcome: ExecuteOutcome)
      requires Valid() && Enabled(conns, world, ExecuteReturns(id, key.thread, run, outcome)) && key.deployment == world.calls[id].r.alias
      requires key.Named()
      modifies this, continuity
      ensures Valid() && world == Do(conns, old(world), ExecuteReturns(id, key.thread, run, outcome))
    {
      var logicalRun := continuity.RecordSubmission(key, run);
      Log(ExecuteReturns(id, key.thread, run, outcome));
    }

    method TrackStep(ghost id: nat, r: Routing, key: Key, run: string, outcome: ExecuteOutcome)
      requires Valid() && RouteAt(world, id) && world.calls[id] == Route(r, Executed(key, run, outcome))
      requires key.Named() && !Blank(run) && r.pair.Named()
      modifies this, pending
      ensures Valid() && world == Do(conns, old(world), Track(id))
    {
      if outcome.StillRunning? || outcome.Interrupted? {
        var stillRunning := outcome.StillRunning?;
        var recorded := pending.RecordPending(key, P.Entry(run, r.pair.assistant, r.pair.subject, r.depth, stillRunning, stillRunning, r.now));
      }
      Log(Track(id));
    }

    method ReleaseActiveStep(ghost id: nat, alias: string, now: real, retain: bool)
      requires Valid() && Enabled(conns, world, ReleaseActive(id)) && Alias(world.calls[id]) == alias && Time(world.calls[id]) == now
      requires retain == (world.calls[id].Route? && world.calls[id].pc.retain)
      modifies this, lifecycle
      ensures Valid() && world == Do(conns, old(world), ReleaseActive(id))
    {
      if !retain {
        lifecycle.Release(alias, Conn(conns, alias), now);
      }
      Log(ReleaseActive(id));
    }

    method ReleasePairStep(ghost id: nat, pair: Pair, retain: bool)
      requires Valid() && Enabled(conns, world, ReleasePair(id)) && world.calls[id].r.pair == pair && world.calls[id].pc.retain == retain && pair.Named()
      modifies this, concurrency
      ensures Valid() && world == Do(conns, old(world), ReleasePair(id))
    {
      if !retain {
        var released := concurrency.Release(pair);
      }
      Log(ReleasePair(id));
    }

    // ---------------------------------------------------------------- submit_response's accesses

    method ClaimAnswerStep(ghost id: nat, q: Responding) returns (claimed: bool)
      requires Valid() && Enabled(conns, world, ClaimAnswer(id)) && world.calls[id].q == q && q.slot.Named()
      modifies this, answers
      ensures Valid() && world == Do(conns, old(world), ClaimAnswer(id))
      ensures claimed == (q.slot !in old(answers.records))
    {
      var result := answers.Claim(q.slot, q.now);
      claimed := result.value;
      Log(ClaimAnswer(id));
    }

    /** Every later write of an answering call is the outcome of its interrupt. */
    method RecordOutcomeStep(ghost step: Step, q: Responding, outcome: R.Outcome)
      requires Valid() && Enabled(conns, world, step) && q.slot.Named() && q.slot in world.answers
      requires (step.ReadState? && step.state.None?) || step.Authorize? || step.ResumeFails? || step.RecordResumed?
      requires world.calls[step.id].q == q
      requires NextAnswers(conns, world, step) == R.WithOutcome(world.answers, q.slot, outcome, q.now)
      modifies this, answers
      ensures Valid() && world == Do(conns, old(world), step)
    {
      var recorded := answers.RecordOutcome(q.slot, outcome, q.now);
      Log(step);
    }

    method ReadPendingStep(ghost id: nat, q: Responding) returns (entry: Option<P.Entry>)
      requires Valid() && Enabled(conns, world, ReadPending(id)) && world.calls[id].q == q && KeyOf(q.slot).Named()
      modifies this
      ensures Valid() && world == Do(conns, old(world), ReadPending(id))
      ensures entry == if KeyOf(q.slot) in old(world).entries then Some(old(world).entries[KeyOf(q.slot)]) else None
    {
      var result := pending.GetPending(KeyOf(q.slot));
      entry := result.value;
      Log(ReadPending(id));
    }

    method ResumeReturnsStep(ghost id: nat, q: Responding, run: string, reply: ResumeOutcome) returns (logicalRun: string)
      requires Valid() && Enabled(conns, world, ResumeReturns(id, run, reply)) && world.calls[id].q == q && KeyOf(q.slot).Named()
      modifies this, continuity
      ensures Valid() && world == Do(conns, old(world), ResumeReturns(id, run, reply))
      ensures logicalRun == K.Recorded(old(world).threads, KeyOf(q.slot), run)[KeyOf(q.slot)].runId
    {
      var result := continuity.RecordSubmission(KeyOf(q.slot), run);
      logicalRun := result.value;
      Log(ResumeReturns(id, run, reply));
    }

    method SettlePending(q: Responding, at: SubmitPc)
      requires at.Settling? && KeyOf(q.slot).Named()
      modifies pending
      ensures pending.entries == SettledEntries(old(pending.entries), q, at)
    {
      if at.outcome.ResumeSucceeded? {
        var resolved := pending.ResolvePending(KeyOf(q.slot));
      } else if at.outcome.ResumeInterrupted? || at.outcome.DeadlineReached? {
        var recorded := pending.RecordPending(KeyOf(q.slot), Resettled(q, at));
      }
    }

    method SettleStep(ghost id: nat, q: Responding, at: SubmitPc)
      requires Valid() && Enabled(conns, world, Settle(id)) && world.calls[id] == Submit(q, at) && KeyOf(q.slot).Named()
      modifies this, pending
      ensures Valid() && world == Do(conns, old(world), Settle(id))
    {
      SettlePending(q, at);
      Log(Settle(id));
    }

    // ---------------------------------------------------------------- the sweeps' accesses

    method ReadAllPending() returns (entries: P.Entries)
      requires Valid() && world.sweep.None?
      modifies this
      ensures Valid() && world == Do(conns, old(world), BeginSweep) && entries == old(world).entries
    {
      entries := pending.entries;
      Log(BeginSweep);
    }

    method SweepPairClaim(entry: P.Entry, seenStatus: Observation, now: real)
      requires PairOf(entry).Named()
      modifies concurrency
      ensures concurrency.claims == SweptClaims(old(concurrency.claims), entry, seenStatus, now)
    {
      if !entry.concurrencyHeld || seenStatus.Unreachable? { return; }
      if seenStatus.Active? {
        var renewed := concurrency.Renew(PairOf(entry), now);
      } else {
        var released := concurrency.Release(PairOf(entry));
      }
    }

    method SweepTracking(key: Key, seenStatus: Observation, now: real)
      requires key.Named()
      modifies pending
      ensures pending.entries == SweptEntries(old(pending.entries), key, seenStatus, now)
    {
      if seenStatus.Paused? {
        var updated := pending.UpdatePending(key, None, Some(false), Some(false), now);
      } else if Settles(seenStatus) {
        var resolved := pending.ResolvePending(key);
      }
    }

    method SweepEntryStep(key: Key, entry: P.Entry, seenStatus: Observation, now: real)
      requires Valid() && Enabled(conns, world, SweepEntry(key, seenStatus, now)) && world.sweep.value[key] == entry
      requires key.Named() && PairOf(entry).Named()
      modifies this, concurrency, lifecycle, pending
      ensures Valid() && world == Do(conns, old(world), SweepEntry(key, seenStatus, now))
    {
      if entry.deploymentHeld && Settles(seenStatus) {
        lifecycle.Release(key.deployment, Conn(conns, key.deployment), now);
      }
      SweepPairClaim(entry, seenStatus, now);
      SweepTracking(key, seenStatus, now);
      Log(SweepEntry(key, seenStatus, now));
    }

    method StopIdleStep(now: real) returns (stopped: seq<string>)
      requires Valid()
      modifies this, lifecycle
      ensures Valid() && world == Do(conns, old(world), StopIdle(now))
      ensures NoDup(stopped) && forall alias :: alias in stopped <==> L.Idle(old(world).records, alias, conns, now)
    {
      stopped := lifecycle.StopAllIdle(conns, now);
      Log(StopIdle(now));
    }
  }

  lemma RunGrows(conns: Connections, trace: seq<World>, log: seq<Step>, step: Step)
    requires Run(conns, trace, log) && Enabled(conns, Last(trace), step)
    ensures Run(conns, trace + [Do(conns, Last(trace), step)], log + [step])
  {
    var t, s := trace + [Do(conns, Last(trace), step)], log + [step];
    forall i | 0 <= i < |s|
      ensures Enabled(conns, t[i], s[i]) && t[i + 1] == Do(conns, t[i], s[i])
    {
      if i < |log| {
        assert t[i] == trace[i] && t[i + 1] == trace[i + 1] && s[i] == log[i];
      }
    }
  }
}

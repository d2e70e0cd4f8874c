/** At most one Run at a time for each (Assistant, Subject), across calls and tracked Runs. */
module ProtocolExclusion {
  import opened Basics
  import opened Protocol
  import opened ProtocolFrames
  import C = Concurrency
  import P = PendingCompletions

  datatype Holder = InFlight(id: nat) | Tracked(key: Key)

  predicate CallHolds(c: Call, pair: Pair) {
    && c.Route? && c.r.pair == pair
    && (c.pc.HoldsPair? || c.pc.DeploymentReady? || c.pc.Admitted? || c.pc.Executing? || c.pc.Executed?
        || (c.pc.Releasing? && !c.pc.retain) || (c.pc.LettingGo? && !c.pc.retain))
  }

  predicate Held(entries: P.Entries, key: Key) {
    key in entries && entries[key].concurrencyHeld
  }

  predicate HeldFor(entries: P.Entries, key: Key, pair: Pair) {
    Held(entries, key) && PairOf(entries[key]) == pair
  }

  predicate Holds(w: World, pair: Pair, h: Holder) {
    match h
    case InFlight(id) => id in w.calls && CallHolds(w.calls[id], pair)
    case Tracked(key) => HeldFor(w.entries, key, pair) || HeldFor(Snapshot(w), key, pair)
  }

  predicate Waiting(w: World, id: nat) {
    RouteAt(w, id) && w.calls[id].pc.Executed?
  }

  /** Nobody shares a pair, and a held pair is stored. */
  ghost predicate Exclusive(w: World) {
    && (forall pair, h, g | Holds(w, pair, h) && Holds(w, pair, g) :: h == g)
    && (forall pair, h | Holds(w, pair, h) :: pair in w.claims)
  }

  /** Only a Thread opened by an execution is ever tracked with its pair, and by that call alone. */
  ghost predicate FreshThreads(w: World) {
    && (forall key | Held(w.entries, key) || Held(Snapshot(w), key) :: key in w.seen)
    && (forall id | Waiting(w, id) :: w.calls[id].pc.key in w.seen)
    && (forall id | Waiting(w, id) :: !Held(w.entries, w.calls[id].pc.key) && !Held(Snapshot(w), w.calls[id].pc.key))
    && (forall id, j | Waiting(w, id) && Waiting(w, j) && id != j :: w.calls[id].pc.key != w.calls[j].pc.key)
    && (forall key | Held(w.entries, key) && Held(Snapshot(w), key) :: PairOf(w.entries[key]) == PairOf(Snapshot(w)[key]))
  }

  /** A claim that goes through over a live holder, which its own patience calls stale. */
  ghost predicate TakesOver(conns: Connections, w: World, step: Step)
    requires Enabled(conns, w, step)
  {
    step.ClaimPair? &&
    var r := w.calls[step.id].r;
    !C.Live(w.claims, r.pair, r.now, r.staleAfter) && exists h :: Holds(w, r.pair, h)
  }

  // ---------------------------------------------------------------- threads

  lemma HeldAfter(conns: Connections, w: World, step: Step, key: Key)
    requires Enabled(conns, w, step) && FreshThreads(w)
    ensures
      var v := Do(conns, w, step);
      && (Held(v.entries, key) ==> (Held(w.entries, key) && PairOf(v.entries[key]) == PairOf(w.entries[key]))
                                   || (step.Track? && key == w.calls[step.id].pc.key && PairOf(v.entries[key]) == w.calls[step.id].r.pair))
      && (Held(Snapshot(v), key) ==> (Held(Snapshot(w), key) && Snapshot(v)[key] == Snapshot(w)[key])
                                     || (step.BeginSweep? && Held(w.entries, key) && Snapshot(v)[key] == w.entries[key]))
  {
  }

  lemma WaitingAfter(conns: Connections, w: World, step: Step, id: nat)
    requires Enabled(conns, w, step) && Waiting(Do(conns, w, step), id)
    ensures
      var v := Do(conns, w, step);
      || (Waiting(w, id) && v.calls[id] == w.calls[id] && Actor(step) != Some(id))
      || (step.ExecuteReturns? && step.id == id && v.calls[id].pc.key !in w.seen && v.calls[id].pc.key in v.seen)
  {
  }

  lemma SeenGrows(conns: Connections, w: World, step: Step)
    requires Enabled(conns, w, step)
    ensures w.seen <= Do(conns, w, step).seen
  {
  }

  lemma FreshStep(conns: Connections, w: World, step: Step)
    requires Enabled(conns, w, step) && FreshThreads(w)
    ensures FreshThreads(Do(conns, w, step))
  {
    var v := Do(conns, w, step);
    SeenGrows(conns, w, step);
    forall key
      ensures Held(v.entries, key) || Held(Snapshot(v), key) ==> key in v.seen
      ensures Held(v.entries, key) && Held(Snapshot(v), key) ==> PairOf(v.entries[key]) == PairOf(Snapshot(v)[key])
    {
      HeldAfter(conns, w, step, key);
    }
    forall id | Waiting(v, id)
      ensures v.calls[id].pc.key in v.seen && !Held(v.entries, v.calls[id].pc.key) && !Held(Snapshot(v), v.calls[id].pc.key)
    {
      WaitingAfter(conns, w, step, id);
      HeldAfter(conns, w, step, v.calls[id].pc.key);
    }
    forall id, j | Waiting(v, id) && Waiting(v, j) && id != j
      ensures v.calls[id].pc.key != v.calls[j].pc.key
    {
      WaitingAfter(conns, w, step, id);
      WaitingAfter(conns, w, step, j);
    }
  }

  // ---------------------------------------------------------------- pairs

  /** A step makes a holder only by claiming a free pair, or by handing a call's pair to its Thread. */
  lemma HoldsAfter(conns: Connections, w: World, step: Step, pair: Pair, h: Holder)
    requires Enabled(conns, w, step) && Holds(Do(conns, w, step), pair, h) && FreshThreads(w)
    ensures Holds(w, pair, h) || Claims(w, step, pair, h) || HandsOver(w, step, pair, h)
  {
    if h.Tracked? {
      HeldAfter(conns, w, step, h.key);
    } else {
      OthersUntouched(conns, w, step);
    }
  }

  predicate Claims(w: World, step: Step, pair: Pair, h: Holder) {
    step.ClaimPair? && h == InFlight(step.id) && RouteAt(w, step.id) && pair == w.calls[step.id].r.pair
    && !C.Live(w.claims, pair, w.calls[step.id].r.now, w.calls[step.id].r.staleAfter)
  }

  predicate HandsOver(w: World, step: Step, pair: Pair, h: Holder) {
    step.Track? && Waiting(w, step.id) && h == Tracked(w.calls[step.id].pc.key) && pair == w.calls[step.id].r.pair
    && w.calls[step.id].pc.outcome.StillRunning?
  }

  /** A step that drops a stored pair ends the hold of whoever had it. */
  lemma DropsOwn(conns: Connections, w: World, step: Step, pair: Pair)
    requires Enabled(conns, w, step) && FreshThreads(w) && pair in w.claims && pair !in Do(conns, w, step).claims
    ensures exists g :: Holds(w, pair, g) && !Holds(Do(conns, w, step), pair, g)
  {
    if step.ReleasePair? {
      assert Holds(w, pair, InFlight(step.id));
    } else {
      var entry := w.sweep.value[step.key];
      assert HeldFor(Snapshot(w), step.key, pair);
      assert Holds(w, pair, Tracked(step.key));
      HeldAfter(conns, w, step, step.key);
    }
  }

  lemma ExclusiveOne(conns: Connections, w: World, step: Step, pair: Pair, h: Holder, g: Holder)
    requires Enabled(conns, w, step) && Exclusive(w) && FreshThreads(w) && !TakesOver(conns, w, step)
    requires Holds(Do(conns, w, step), pair, h) && Holds(Do(conns, w, step), pair, g)
    ensures h == g
  {
    HoldsAfter(conns, w, step, pair, h);
    HoldsAfter(conns, w, step, pair, g);
    if Holds(w, pair, h) && Holds(w, pair, g) {
      return;
    } else if Claims(w, step, pair, h) || Claims(w, step, pair, g) {
      OnlyClaimant(conns, w, step, pair, h, g);
    } else if HandsOver(w, step, pair, h) {
      HandedOver(conns, w, step, pair, h);
    } else {
      HandedOver(conns, w, step, pair, g);
    }
  }

  /** A claim that takes nothing over finds no other holder. */
  lemma OnlyClaimant(conns: Connections, w: World, step: Step, pair: Pair, h: Holder, g: Holder)
    requires Enabled(conns, w, step) && !TakesOver(conns, w, step)
    requires Holds(w, pair, h) || Claims(w, step, pair, h) || HandsOver(w, step, pair, h)
    requires Holds(w, pair, g) || Claims(w, step, pair, g) || HandsOver(w, step, pair, g)
    requires Claims(w, step, pair, h) || Claims(w, step, pair, g)
    ensures h == g
  {
  }

  lemma HandedOver(conns: Connections, w: World, step: Step, pair: Pair, h: Holder)
    requires Enabled(conns, w, step) && HandsOver(w, step, pair, h)
    ensures Holds(w, pair, InFlight(step.id)) && !Holds(Do(conns, w, step), pair, InFlight(step.id))
  {
  }

  lemma StoredOne(conns: Connections, w: World, step: Step, pair: Pair, h: Holder)
    requires Enabled(conns, w, step) && Exclusive(w) && FreshThreads(w) && Holds(Do(conns, w, step), pair, h)
    ensures pair in Do(conns, w, step).claims
  {
    HoldsAfter(conns, w, step, pair, h);
    var v := Do(conns, w, step);
    if HandsOver(w, step, pair, h) {
      assert Holds(w, pair, InFlight(step.id));
      ClaimsUntouched(conns, w, step);
    } else if Holds(w, pair, h) && pair !in v.claims {
      DropsOwn(conns, w, step, pair);
    }
  }

  lemma TakeoverBreaks(conns: Connections, w: World, step: Step)
    requires Enabled(conns, w, step) && TakesOver(conns, w, step)
    ensures !Exclusive(Do(conns, w, step))
  {
    var v, pair := Do(conns, w, step), w.calls[step.id].r.pair;
    var h :| Holds(w, pair, h);
    assert h != InFlight(step.id);
    OthersUntouched(conns, w, step);
    EntriesUntouched(conns, w, step);
    SweepUntouched(conns, w, step);
    assert Holds(v, pair, h) && Holds(v, pair, InFlight(step.id));
  }

  /** A step keeps exclusion exactly when it is not a claim over a live holder. */
  lemma ExclusiveStep(conns: Connections, w: World, step: Step)
    requires Enabled(conns, w, step) && Exclusive(w) && FreshThreads(w)
    ensures Exclusive(Do(conns, w, step)) <==> !TakesOver(conns, w, step)
  {
    var v := Do(conns, w, step);
    if TakesOver(conns, w, step) {
      TakeoverBreaks(conns, w, step);
    } else {
      forall pair, h, g | Holds(v, pair, h) && Holds(v, pair, g)
        ensures h == g
      {
        ExclusiveOne(conns, w, step, pair, h, g);
      }
      forall pair, h | Holds(v, pair, h)
        ensures pair in v.claims
      {
        StoredOne(conns, w, step, pair, h);
      }
    }
  }

  // ---------------------------------------------------------------- every run

  lemma {:induction false} FreshAlways(conns: Connections, trace: seq<World>, steps: seq<Step>, n: nat)
    requires Run(conns, trace, steps) && n <= |steps|
    ensures FreshThreads(trace[n])
  {
    if n > 0 {
      FreshAlways(conns, trace, steps, n - 1);
      FreshStep(conns, trace[n - 1], steps[n - 1]);
    }
  }

  lemma ExclusiveAt(conns: Connections, trace: seq<World>, steps: seq<Step>, i: nat)
    requires Run(conns, trace, steps) && i < |steps| && Exclusive(trace[i])
    ensures Exclusive(trace[i + 1]) <==> !TakesOver(conns, trace[i], steps[i])
  {
    FreshAlways(conns, trace, steps, i);
    ExclusiveStep(conns, trace[i], steps[i]);
  }

  /**
   Over every run, each (Assistant, Subject) has at most one holder, call or tracked Run, and the
   holder's key is always stored, exactly when no claim goes through over a live holder.
   */
  lemma PairsAreExclusive(conns: Connections, trace: seq<World>, steps: seq<Step>)
    requires Run(conns, trace, steps)
    ensures (forall i | 0 <= i <= |steps| :: Exclusive(trace[i]))
            <==> (forall i | 0 <= i < |steps| :: !TakesOver(conns, trace[i], steps[i]))
  {
    assert Exclusive(trace[0]);
    if forall i | 0 <= i <= |steps| :: Exclusive(trace[i]) {
      forall i | 0 <= i < |steps|
        ensures !TakesOver(conns, trace[i], steps[i])
      {
        ExclusiveAt(conns, trace, steps, i);
        assert Exclusive(trace[i + 1]);
      }
    }
    if forall i | 0 <= i < |steps| :: !TakesOver(conns, trace[i], steps[i]) {
      for n := 0 to |steps|
        invariant forall i | 0 <= i <= n :: Exclusive(trace[i])
      {
        ExclusiveAt(conns, trace, steps, n);
      }
    }
  }
}

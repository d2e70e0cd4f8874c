/** No store of the protocol ever holds a blank name, so no access of a call to one is refused. */
module ProtocolNames {
  import opened Basics
  import opened Protocol
  import opened ProtocolFrames
  import K = RunContinuity
  import P = PendingCompletions
  import R = ResponseDedupe

  predicate CallNamed(c: Call) {
    match c
    case Route(r, pc) => r.pair.Named() && !Blank(r.alias) && !Blank(r.signalId) && (pc.Executed? ==> pc.key.Named() && !Blank(pc.run))
    case Submit(q, _) => q.slot.Named()
  }

  predicate EntryNamed(key: Key, entry: P.Entry) {
    key.Named() && PairOf(entry).Named()
  }

  ghost predicate AllNamed(w: World) {
    && (forall id | id in w.calls :: CallNamed(w.calls[id]))
    && (forall key | key in w.entries :: EntryNamed(key, w.entries[key]))
    && (forall key | key in Snapshot(w) :: EntryNamed(key, Snapshot(w)[key]))
    && KeysNamed(w)
  }

  predicate ThreadNamed(key: Key, record: K.Record) {
    key.Named() && !Blank(record.runId) && forall i | 0 <= i < |record.apiRunIds| :: !Blank(record.apiRunIds[i])
  }

  /** The stores that are keyed by names alone. */
  ghost predicate KeysNamed(w: World) {
    && (forall pair | pair in w.claims :: pair.Named())
    && (forall alias | alias in w.records :: !Blank(alias))
    && (forall id | id in w.signals :: !Blank(id))
    && (forall slot | slot in w.answers :: slot.Named())
    && (forall key | key in w.threads :: ThreadNamed(key, w.threads[key]))
  }

  lemma ClaimsNamed(conns: Connections, w: World, step: Step, pair: Pair)
    requires Enabled(conns, w, step) && AllNamed(w) && pair in Do(conns, w, step).claims
    ensures pair.Named()
  {
    if step.ClaimPair? {
      assert CallNamed(w.calls[step.id]);
    }
  }

  lemma RecordsNamed(conns: Connections, w: World, step: Step, alias: string)
    requires Enabled(conns, w, step) && AllNamed(w) && alias in Do(conns, w, step).records
    ensures !Blank(alias)
  {
    if step.Start? {
      assert CallNamed(w.calls[step.id]);
    }
  }

  lemma SignalsNamed(conns: Connections, w: World, step: Step, id: string)
    requires Enabled(conns, w, step) && AllNamed(w) && id in Do(conns, w, step).signals
    ensures !Blank(id)
  {
    if step.ClaimSignal? {
      assert CallNamed(w.calls[step.id]);
    }
  }

  lemma AnswersNamed(conns: Connections, w: World, step: Step, slot: R.Slot)
    requires Enabled(conns, w, step) && AllNamed(w) && slot in Do(conns, w, step).answers
    ensures slot.Named()
  {
    if step.ClaimAnswer? {
      assert CallNamed(w.calls[step.id]);
    }
  }

  lemma RecordedNamed(threads: K.Records, key: Key, run: string, other: Key)
    requires other in K.Recorded(threads, key, run) && key.Named() && !Blank(run)
    requires forall k | k in threads :: ThreadNamed(k, threads[k])
    ensures ThreadNamed(other, K.Recorded(threads, key, run)[other])
  {
  }

  lemma ThreadsNamed(conns: Connections, w: World, step: Step, key: Key)
    requires Enabled(conns, w, step) && AllNamed(w) && key in Do(conns, w, step).threads
    ensures ThreadNamed(key, Do(conns, w, step).threads[key])
  {
    if step.ExecuteReturns? {
      assert CallNamed(w.calls[step.id]);
      RecordedNamed(w.threads, P.Key(w.calls[step.id].r.alias, step.thread), step.run, key);
    } else if step.ResumeReturns? {
      assert CallNamed(w.calls[step.id]);
      RecordedNamed(w.threads, KeyOf(w.calls[step.id].q.slot), step.run, key);
    }
  }

  lemma KeysStep(conns: Connections, w: World, step: Step)
    requires Enabled(conns, w, step) && AllNamed(w)
    ensures KeysNamed(Do(conns, w, step))
  {
    var v := Do(conns, w, step);
    forall pair | pair in v.claims ensures pair.Named() { ClaimsNamed(conns, w, step, pair); }
    forall alias | alias in v.records ensures !Blank(alias) { RecordsNamed(conns, w, step, alias); }
    forall id | id in v.signals ensures !Blank(id) { SignalsNamed(conns, w, step, id); }
    forall slot | slot in v.answers ensures slot.Named() { AnswersNamed(conns, w, step, slot); }
    forall key | key in v.threads ensures ThreadNamed(key, v.threads[key]) { ThreadsNamed(conns, w, step, key); }
  }

  lemma FinishedIdNamed(runId: string)
    ensures !Blank(FinishedId(runId))
  {
    assert FinishedId(runId)[0] == 'r';
  }

  lemma MovedNamed(conns: Connections, w: World, step: Step)
    requires Enabled(conns, w, step) && AllNamed(w) && Actor(step).Some? && Moved(conns, w, step).Some?
    ensures CallNamed(Moved(conns, w, step).value)
  {
    if step.Cascade? {
      FinishedIdNamed(w.finished[step.i].runId);
    } else if !Opens(step) {
      assert CallNamed(w.calls[step.id]);
    }
  }

  lemma CallsNamed(conns: Connections, w: World, step: Step, id: nat)
    requires Enabled(conns, w, step) && AllNamed(w) && id in Do(conns, w, step).calls
    ensures CallNamed(Do(conns, w, step).calls[id])
  {
    if Actor(step) == Some(id) {
      MovedNamed(conns, w, step);
    } else {
      OthersUntouched(conns, w, step);
    }
  }

  lemma TrackedNamed(entries: P.Entries, r: Routing, pc: RoutePc, key: Key)
    requires pc.Executed? && CallNamed(Route(r, pc)) && key in entries[pc.key := Tracked(r, pc)]
    requires key in entries ==> EntryNamed(key, entries[key])
    ensures EntryNamed(key, entries[pc.key := Tracked(r, pc)][key])
  {
  }

  lemma SettledNamed(entries: P.Entries, q: Responding, at: SubmitPc, key: Key)
    requires at.Settling? && key in SettledEntries(entries, q, at)
    requires key in entries ==> EntryNamed(key, entries[key])
    ensures EntryNamed(key, SettledEntries(entries, q, at)[key])
  {
  }

  lemma SweptNamed(entries: P.Entries, swept: Key, seenStatus: Observation, now: real, key: Key)
    requires key in SweptEntries(entries, swept, seenStatus, now)
    requires key in entries ==> EntryNamed(key, entries[key])
    ensures EntryNamed(key, SweptEntries(entries, swept, seenStatus, now)[key])
  {
  }

  lemma EntriesNamed(conns: Connections, w: World, step: Step, key: Key)
    requires Enabled(conns, w, step) && key in Do(conns, w, step).entries
    requires key in w.entries ==> EntryNamed(key, w.entries[key])
    requires step.Track? ==> CallNamed(w.calls[step.id])
    ensures EntryNamed(key, Do(conns, w, step).entries[key])
  {
    assert Do(conns, w, step).entries == NextEntries(conns, w, step);
    if step.Track? {
      var c := w.calls[step.id];
      TrackedNamed(w.entries, c.r, c.pc, if key in w.entries then key else c.pc.key);
    } else if step.Settle? {
      SettledNamed(w.entries, w.calls[step.id].q, w.calls[step.id].at, key);
    } else if step.SweepEntry? {
      SweptNamed(w.entries, step.key, step.seenStatus, step.now, key);
    }
  }

  lemma SnapshotNamed(conns: Connections, w: World, step: Step, key: Key)
    requires Enabled(conns, w, step) && AllNamed(w) && key in Snapshot(Do(conns, w, step))
    ensures EntryNamed(key, Snapshot(Do(conns, w, step))[key])
  {
    assert step.BeginSweep? || key in Snapshot(w);
  }

  lemma NamedStep(conns: Connections, w: World, step: Step)
    requires Enabled(conns, w, step) && AllNamed(w)
    ensures AllNamed(Do(conns, w, step))
  {
    var v := Do(conns, w, step);
    forall id | id in v.calls
      ensures CallNamed(v.calls[id])
    {
      CallsNamed(conns, w, step, id);
    }
    forall key | key in v.entries
      ensures EntryNamed(key, v.entries[key])
    {
      assert step.Track? ==> CallNamed(w.calls[step.id]);
      EntriesNamed(conns, w, step, key);
    }
    forall key | key in Snapshot(v)
      ensures EntryNamed(key, Snapshot(v)[key])
    {
      SnapshotNamed(conns, w, step, key);
    }
    KeysStep(conns, w, step);
  }

  lemma {:induction false} NamedAlways(conns: Connections, trace: seq<World>, steps: seq<Step>, n: nat)
    requires Run(conns, trace, steps) && n <= |steps|
    ensures AllNamed(trace[n])
  {
    if n > 0 {
      NamedAlways(conns, trace, steps, n - 1);
      NamedStep(conns, trace[n - 1], steps[n - 1]);
    }
  }
}

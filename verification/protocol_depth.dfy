/** The cascade depth of a Thread: that of the submission that opened it, across pauses, answers and sweeps. */
module ProtocolDepth {
  import opened Basics
  import opened Protocol
  import opened ProtocolFrames
  import opened ProtocolCascade
  import P = PendingCompletions

  // ---------------------------------------------------------------- what speaks of a Thread

  predicate FinishAt(f: Finish, key: Key, depth: nat) {
    f.key == key ==> f.depth == depth
  }

  predicate EntryAt(entries: P.Entries, key: Key, depth: nat) {
    key in entries ==> entries[key].cascadeDepth == depth
  }

  /** A call that speaks of the Thread gives it this depth. */
  predicate CallAt(c: Call, key: Key, depth: nat) {
    match c
    case Route(r, pc) =>
      && (pc.Executed? && pc.key == key ==> r.depth == depth)
      && (pc.Releasing? && pc.finish.Some? ==> FinishAt(pc.finish.value, key, depth))
      && (pc.LettingGo? && pc.finish.Some? ==> FinishAt(pc.finish.value, key, depth))
    case Submit(q, at) =>
      KeyOf(q.slot) == key && (at.Prepared? || at.Resuming? || at.Returned? || at.Settling?) ==> at.depth == depth
  }

  /** Every call, entry and finish of the Thread has this depth. */
  ghost predicate Carries(w: World, key: Key, depth: nat) {
    && EntryAt(w.entries, key, depth) && EntryAt(Snapshot(w), key, depth)
    && (forall id | id in w.calls :: CallAt(w.calls[id], key, depth))
    && (forall i | 0 <= i < |w.finished| :: FinishAt(w.finished[i], key, depth))
  }

  /** An answer looks for the Thread's entry and finds none, so it starts again at depth 0. */
  predicate Forgets(w: World, step: Step, key: Key, depth: nat) {
    step.ReadPending? && SubmitAt(w, step.id) && KeyOf(w.calls[step.id].q.slot) == key && key !in w.entries && depth != 0
  }

  // ---------------------------------------------------------------- one step

  lemma MovedCarries(conns: Connections, w: World, step: Step, key: Key, depth: nat)
    requires Enabled(conns, w, step) && Carries(w, key, depth) && key in w.seen && Actor(step).Some? && Moved(conns, w, step).Some?
    ensures CallAt(Moved(conns, w, step).value, key, depth) <==> !Forgets(w, step, key, depth)
  {
    if !Opens(step) {
      assert CallAt(w.calls[step.id], key, depth);
    }
  }

  lemma CallsCarry(conns: Connections, w: World, step: Step, key: Key, depth: nat, id: nat)
    requires Enabled(conns, w, step) && Carries(w, key, depth) && key in w.seen && id in Do(conns, w, step).calls
    requires !Forgets(w, step, key, depth)
    ensures CallAt(Do(conns, w, step).calls[id], key, depth)
  {
    if Actor(step) == Some(id) {
      MovedCarries(conns, w, step, key, depth);
    } else {
      OthersUntouched(conns, w, step);
    }
  }

  lemma EntriesCarry(conns: Connections, w: World, step: Step, key: Key, depth: nat)
    requires Enabled(conns, w, step) && Carries(w, key, depth)
    ensures EntryAt(Do(conns, w, step).entries, key, depth) && EntryAt(Snapshot(Do(conns, w, step)), key, depth)
  {
    if step.Track? || step.Settle? {
      assert CallAt(w.calls[step.id], key, depth);
    } else if step.SweepEntry? && key in Do(conns, w, step).entries {
      SweptShallow(w.entries, step.key, step.seenStatus, step.now, key);
    } else if !step.SweepEntry? {
      EntriesUntouched(conns, w, step);
    }
  }

  lemma FinishesCarry(conns: Connections, w: World, step: Step, key: Key, depth: nat, i: nat)
    requires Enabled(conns, w, step) && Carries(w, key, depth) && i < |Do(conns, w, step).finished|
    ensures FinishAt(Do(conns, w, step).finished[i], key, depth)
  {
    if Actor(step).Some? && step.id in w.calls {
      assert CallAt(w.calls[step.id], key, depth);
    }
  }

  /** A step keeps the depth of a known Thread exactly when it is not an answer that finds no entry. */
  lemma CarriesStep(conns: Connections, w: World, step: Step, key: Key, depth: nat)
    requires Enabled(conns, w, step) && Carries(w, key, depth) && key in w.seen
    ensures Carries(Do(conns, w, step), key, depth) <==> !Forgets(w, step, key, depth)
  {
    var v := Do(conns, w, step);
    if Forgets(w, step, key, depth) {
      MovedCarries(conns, w, step, key, depth);
      assert v.calls[step.id] == Moved(conns, w, step).value;
    } else {
      EntriesCarry(conns, w, step, key, depth);
      forall id | id in v.calls
        ensures CallAt(v.calls[id], key, depth)
      {
        CallsCarry(conns, w, step, key, depth, id);
      }
      forall i | 0 <= i < |v.finished|
        ensures FinishAt(v.finished[i], key, depth)
      {
        FinishesCarry(conns, w, step, key, depth, i);
      }
    }
  }

  // ---------------------------------------------------------------- the submission that opened it

  /** A call waiting for its backend has its submission on record. */
  ghost predicate OnRecord(w: World) {
    forall id | RouteAt(w, id) && w.calls[id].pc.Executing? :: Submission(w.calls[id].r, w.calls[id].pc.claim) in w.submissions
  }

  lemma OnRecordStep(conns: Connections, w: World, step: Step)
    requires Enabled(conns, w, step) && OnRecord(w)
    ensures OnRecord(Do(conns, w, step))
  {
    var v := Do(conns, w, step);
    forall id | RouteAt(v, id) && v.calls[id].pc.Executing?
      ensures Submission(v.calls[id].r, v.calls[id].pc.claim) in v.submissions
    {
      OthersUntouched(conns, w, step);
      if step.Execute? && step.id == id {
        assert v.submissions[|w.submissions|] == Submission(v.calls[id].r, v.calls[id].pc.claim);
      }
    }
  }

  lemma {:induction false} OnRecordAlways(conns: Connections, trace: seq<World>, steps: seq<Step>, n: nat)
    requires Run(conns, trace, steps) && n <= |steps|
    ensures OnRecord(trace[n])
  {
    if n > 0 {
      OnRecordAlways(conns, trace, steps, n - 1);
      OnRecordStep(conns, trace[n - 1], steps[n - 1]);
    }
  }

  /** The step opens the Thread for that submission. */
  predicate OpensThread(w: World, step: Step, key: Key, submission: Submission) {
    && step.ExecuteReturns? && RouteAt(w, step.id) && w.calls[step.id].pc.Executing?
    && key == P.Key(w.calls[step.id].r.alias, step.thread) && submission == Submission(w.calls[step.id].r, w.calls[step.id].pc.claim)
  }

  /** Nothing speaks of a Thread before it is opened. */
  lemma OpenedCarries(conns: Connections, w: World, step: Step, key: Key, submission: Submission)
    requires Enabled(conns, w, step) && Known(w) && OpensThread(w, step, key, submission)
    ensures Carries(Do(conns, w, step), key, submission.routing.depth) && key in Do(conns, w, step).seen
  {
    var v := Do(conns, w, step);
    assert key !in w.seen;
    forall id | id in v.calls
      ensures CallAt(v.calls[id], key, submission.routing.depth)
    {
      OthersUntouched(conns, w, step);
      if id != step.id {
        assert CallKnown(w, w.calls[id]);
      }
    }
    forall i | 0 <= i < |v.finished|
      ensures FinishAt(v.finished[i], key, submission.routing.depth)
    {
      assert FinishKnown(w, w.finished[i]);
    }
  }

  // ---------------------------------------------------------------- every run

  lemma SeenStays(conns: Connections, w: World, step: Step, key: Key)
    requires Enabled(conns, w, step) && key in w.seen
    ensures key in Do(conns, w, step).seen
  {
  }

  lemma {:induction false} SeenAfter(conns: Connections, trace: seq<World>, steps: seq<Step>, i: nat, n: nat, key: Key)
    requires Run(conns, trace, steps) && i <= n <= |steps| && key in trace[i].seen
    ensures key in trace[n].seen
    decreases n
  {
    if i < n {
      SeenAfter(conns, trace, steps, i, n - 1, key);
      SeenStays(conns, trace[n - 1], steps[n - 1], key);
    }
  }

  lemma {:induction false} CarriesUntil(conns: Connections, trace: seq<World>, steps: seq<Step>, i: nat, n: nat, key: Key, depth: nat)
    requires Run(conns, trace, steps) && i <= n <= |steps| && key in trace[i].seen && Carries(trace[i], key, depth)
    requires forall j | i <= j < n :: !Forgets(trace[j], steps[j], key, depth)
    ensures Carries(trace[n], key, depth)
    decreases n
  {
    if i < n {
      CarriesUntil(conns, trace, steps, i, n - 1, key, depth);
      SeenAfter(conns, trace, steps, i, n - 1, key);
      CarriesStep(conns, trace[n - 1], steps[n - 1], key, depth);
    }
  }

  /**
   Over every run, a Thread opened by a submission keeps that submission's depth in every call, entry
   and finish that speaks of it, across any pauses, answers and sweeps, exactly when every answer that
   looks for the Thread's entry finds it (or the depth is 0 anyway).
   */
  lemma ThreadKeepsDepth(conns: Connections, trace: seq<World>, steps: seq<Step>, i: nat, key: Key, submission: Submission)
    requires Run(conns, trace, steps) && i < |steps| && OpensThread(trace[i], steps[i], key, submission)
    ensures submission in trace[i].submissions
    ensures (forall n | i < n <= |steps| :: Carries(trace[n], key, submission.routing.depth))
            <==> (forall j | i < j < |steps| :: !Forgets(trace[j], steps[j], key, submission.routing.depth))
  {
    var depth := submission.routing.depth;
    OnRecordAlways(conns, trace, steps, i);
    SoundAlways(conns, trace, steps, i);
    OpenedCarries(conns, trace[i], steps[i], key, submission);
    if forall j | i < j < |steps| :: !Forgets(trace[j], steps[j], key, depth) {
      forall n | i < n <= |steps|
        ensures Carries(trace[n], key, depth)
      {
        CarriesUntil(conns, trace, steps, i + 1, n, key, depth);
      }
    }
    if forall n | i < n <= |steps| :: Carries(trace[n], key, depth) {
      forall j | i < j < |steps|
        ensures !Forgets(trace[j], steps[j], key, depth)
      {
        SeenAfter(conns, trace, steps, i + 1, j, key);
        assert Carries(trace[j], key, depth) && Carries(trace[j + 1], key, depth);
        CarriesStep(conns, trace[j], steps[j], key, depth);
      }
    }
  }
}

/** Each interrupt is answered at most once, whoever submits, and its outcome is the true one. */
module ProtocolAnswers {
  import opened Basics
  import opened Protocol
  import opened ProtocolFrames
  import R = ResponseDedupe

  predicate BeforeResume(at: SubmitPc) {
    at.Claimed? || at.Read? || at.Authorized? || at.Prepared?
  }

  /** The call that claimed its interrupt and has not yet recorded how it went. */
  predicate Owns(w: World, id: nat) {
    SubmitAt(w, id) && (BeforeResume(w.calls[id].at) || w.calls[id].at.Resuming? || w.calls[id].at.Returned?)
  }

  function SlotOf(w: World, id: nat): R.Slot
    requires SubmitAt(w, id)
  {
    w.calls[id].q.slot
  }

  predicate WasResumed(w: World, slot: R.Slot) {
    exists i | 0 <= i < |w.resumes| :: w.resumes[i].slot == slot
  }

  predicate Unsettled(w: World, slot: R.Slot) {
    slot in w.answers && w.answers[slot].outcome.None?
  }

  /** What the record says so far about an owner's interrupt. */
  predicate OwnerSaw(w: World, id: nat)
    requires SubmitAt(w, id)
  {
    var slot, at := SlotOf(w, id), w.calls[id].at;
    && Unsettled(w, slot)
    && (BeforeResume(at) ==> !WasResumed(w, slot))
    && (BeforeResume(at) || at.Resuming? ==> (slot, true) !in w.replies && (slot, false) !in w.replies)
    && (at.Returned? ==> (slot, true) in w.replies && (slot, false) !in w.replies)
    && (at.Resuming? || at.Returned? ==> WasResumed(w, slot))
    && (at.Authorized? || at.Prepared? ==> Accepts(at.seen, slot.interrupt, w.calls[id].q.revision, at.granted))
  }

  predicate Justified(r: Resumption) {
    Accepts(r.seen, r.slot.interrupt, r.revision, r.granted)
  }

  predicate Recorded(w: World, slot: R.Slot, outcome: R.Outcome) {
    slot in w.answers && w.answers[slot].outcome == Some(outcome)
  }

  /** One owner at a time, and the record is as that owner left it. */
  ghost predicate OneOwner(w: World, slot: R.Slot) {
    && (forall id | Owns(w, id) && SlotOf(w, id) == slot :: OwnerSaw(w, id))
    && (forall id, j | Owns(w, id) && Owns(w, j) && SlotOf(w, id) == slot && SlotOf(w, j) == slot :: id == j)
  }

  /** The interrupt is resumed at most once, and only on an accepting authorization. */
  ghost predicate ResumedOnce(w: World, slot: R.Slot) {
    && (forall i | 0 <= i < |w.resumes| && w.resumes[i].slot == slot :: Justified(w.resumes[i]))
    && (forall i, j | 0 <= i < |w.resumes| && 0 <= j < |w.resumes| && w.resumes[i].slot == slot && w.resumes[j].slot == slot :: i == j)
  }

  /** The recorded outcome against what the backend answered. */
  predicate Truthful(w: World, slot: R.Slot) {
    && (WasResumed(w, slot) ==> slot in w.answers)
    && ((slot, true) in w.replies || (slot, false) in w.replies ==> WasResumed(w, slot))
    && ((slot, true) in w.replies ==> (slot, false) !in w.replies && (Unsettled(w, slot) || Recorded(w, slot, R.Resumed)))
    && ((slot, false) in w.replies ==> Recorded(w, slot, R.Unknown))
    && (Recorded(w, slot, R.Resumed) ==> (slot, true) in w.replies)
    && (Recorded(w, slot, R.Rejected) ==> !WasResumed(w, slot))
  }

  ghost predicate SlotOk(w: World, slot: R.Slot) {
    OneOwner(w, slot) && ResumedOnce(w, slot) && Truthful(w, slot)
  }

  ghost predicate Answered(w: World) {
    forall slot {:trigger SlotOk(w, slot)} :: SlotOk(w, slot)
  }

  // ---------------------------------------------------------------- a step elsewhere

  /** The step is the owner's of this interrupt, or a first claim of it. */
  predicate Concerns(w: World, step: Step, slot: R.Slot) {
    Actor(step).Some? && SubmitAt(w, step.id) && SlotOf(w, step.id) == slot && (Owns(w, step.id) || (step.ClaimAnswer? && slot !in w.answers))
  }

  predicate SameRecord(w: World, v: World, slot: R.Slot) {
    && (slot in v.answers <==> slot in w.answers) && (slot in w.answers ==> v.answers[slot] == w.answers[slot])
    && (WasResumed(v, slot) <==> WasResumed(w, slot))
    && ((slot, true) in v.replies <==> (slot, true) in w.replies) && ((slot, false) in v.replies <==> (slot, false) in w.replies)
  }

  lemma AnswersSame(conns: Connections, w: World, step: Step, slot: R.Slot)
    requires Enabled(conns, w, step) && !Concerns(w, step, slot)
    ensures
      var v := Do(conns, w, step);
      (slot in v.answers <==> slot in w.answers) && (slot in w.answers ==> v.answers[slot] == w.answers[slot])
  {
  }

  lemma RepliesSame(conns: Connections, w: World, step: Step, slot: R.Slot)
    requires Enabled(conns, w, step) && !Concerns(w, step, slot)
    ensures
      var v := Do(conns, w, step);
      ((slot, true) in v.replies <==> (slot, true) in w.replies) && ((slot, false) in v.replies <==> (slot, false) in w.replies)
  {
  }

  /** Resumes are only ever appended. */
  lemma ResumesGrow(conns: Connections, w: World, step: Step)
    requires Enabled(conns, w, step)
    ensures
      var v := Do(conns, w, step);
      || v.resumes == w.resumes
      || (step.Resume? && v.resumes == w.resumes + [Resumption(SlotOf(w, step.id), w.calls[step.id].q.revision, w.calls[step.id].at.seen, w.calls[step.id].at.granted)])
  {
  }

  lemma ResumedSame(w: World, v: World, slot: R.Slot)
    requires v.resumes == w.resumes || (|v.resumes| > 0 && v.resumes == w.resumes + [Last(v.resumes)] && Last(v.resumes).slot != slot)
    ensures WasResumed(v, slot) <==> WasResumed(w, slot)
    ensures ResumedOnce(w, slot) ==> ResumedOnce(v, slot)
  {
    if i :| 0 <= i < |w.resumes| && w.resumes[i].slot == slot {
      assert v.resumes[i] == w.resumes[i];
    }
  }

  lemma ElsewhereSame(conns: Connections, w: World, step: Step, slot: R.Slot)
    requires Enabled(conns, w, step) && !Concerns(w, step, slot)
    ensures SameRecord(w, Do(conns, w, step), slot)
    ensures ResumedOnce(w, slot) ==> ResumedOnce(Do(conns, w, step), slot)
  {
    AnswersSame(conns, w, step, slot);
    RepliesSame(conns, w, step, slot);
    ResumesGrow(conns, w, step);
    ResumedSame(w, Do(conns, w, step), slot);
  }

  /** Nobody starts to own an interrupt except by claiming it. */
  lemma OwnersSame(conns: Connections, w: World, step: Step, slot: R.Slot, id: nat)
    requires Enabled(conns, w, step) && !Concerns(w, step, slot)
    requires Owns(Do(conns, w, step), id) && SlotOf(Do(conns, w, step), id) == slot
    ensures Owns(w, id) && SlotOf(w, id) == slot && Do(conns, w, step).calls[id] == w.calls[id]
  {
    OthersUntouched(conns, w, step);
  }

  lemma Elsewhere(conns: Connections, w: World, step: Step, slot: R.Slot)
    requires Enabled(conns, w, step) && SlotOk(w, slot) && !Concerns(w, step, slot)
    ensures SlotOk(Do(conns, w, step), slot)
  {
    var v := Do(conns, w, step);
    ElsewhereSame(conns, w, step, slot);
    forall id | Owns(v, id) && SlotOf(v, id) == slot
      ensures Owns(w, id) && SlotOf(w, id) == slot && v.calls[id] == w.calls[id]
    {
      OwnersSame(conns, w, step, slot, id);
    }
  }

  // ---------------------------------------------------------------- the owner's own step

  /** After a step of the owner, nobody else owns its interrupt. */
  lemma StaysOwner(conns: Connections, w: World, step: Step, id: nat)
    requires Enabled(conns, w, step) && Actor(step).Some? && SubmitAt(w, step.id) && Concerns(w, step, SlotOf(w, step.id))
    requires SlotOk(w, SlotOf(w, step.id))
    requires Owns(Do(conns, w, step), id) && SlotOf(Do(conns, w, step), id) == SlotOf(w, step.id)
    ensures id == step.id
  {
    OthersUntouched(conns, w, step);
    assert Owns(w, id) ==> OwnerSaw(w, id);
  }

  lemma OwnResumes(conns: Connections, w: World, step: Step, slot: R.Slot)
    requires Enabled(conns, w, step) && SlotOk(w, slot) && Concerns(w, step, slot)
    ensures
      var v := Do(conns, w, step);
      && ResumedOnce(v, slot)
      && (WasResumed(v, slot) <==> WasResumed(w, slot) || (step.Resume? && v.calls[step.id] == Submit(w.calls[step.id].q, Resuming(w.calls[step.id].at.pair, w.calls[step.id].at.depth))))
  {
    var v := Do(conns, w, step);
    if step.Resume? && !Blank(w.calls[step.id].at.pair.assistant) {
      assert OwnerSaw(w, step.id);
      assert v.resumes[|w.resumes|].slot == slot;
      assert forall i | 0 <= i < |w.resumes| :: v.resumes[i] == w.resumes[i] && w.resumes[i].slot != slot;
    } else {
      assert v.resumes == w.resumes;
    }
  }

  lemma OwnSees(conns: Connections, w: World, step: Step, slot: R.Slot)
    requires Enabled(conns, w, step) && SlotOk(w, slot) && Concerns(w, step, slot) && Owns(Do(conns, w, step), step.id)
    ensures OwnerSaw(Do(conns, w, step), step.id)
  {
    OwnResumes(conns, w, step, slot);
    assert Owns(w, step.id) ==> OwnerSaw(w, step.id);
    if step.ClaimAnswer? {
      assert BeforeResume(Do(conns, w, step).calls[step.id].at);
    } else if step.Resume? || step.ResumeReturns? {
      assert Owns(w, step.id);
    } else {
      assert Owns(w, step.id) && BeforeResume(w.calls[step.id].at);
    }
  }

  lemma OwnTruth(conns: Connections, w: World, step: Step, slot: R.Slot)
    requires Enabled(conns, w, step) && SlotOk(w, slot) && Concerns(w, step, slot)
    ensures Truthful(Do(conns, w, step), slot)
  {
    OwnResumes(conns, w, step, slot);
    assert Owns(w, step.id) ==> OwnerSaw(w, step.id);
  }

  lemma Own(conns: Connections, w: World, step: Step, slot: R.Slot)
    requires Enabled(conns, w, step) && SlotOk(w, slot) && Concerns(w, step, slot)
    ensures SlotOk(Do(conns, w, step), slot)
  {
    var v := Do(conns, w, step);
    OwnResumes(conns, w, step, slot);
    OwnTruth(conns, w, step, slot);
    forall id | Owns(v, id) && SlotOf(v, id) == slot
      ensures id == step.id && OwnerSaw(v, id)
    {
      StaysOwner(conns, w, step, id);
      OwnSees(conns, w, step, slot);
    }
  }

  lemma AnsweredStep(conns: Connections, w: World, step: Step)
    requires Enabled(conns, w, step) && Answered(w)
    ensures Answered(Do(conns, w, step))
  {
    forall slot
      ensures SlotOk(Do(conns, w, step), slot)
    {
      assert SlotOk(w, slot);
      if Concerns(w, step, slot) {
        Own(conns, w, step, slot);
      } else {
        Elsewhere(conns, w, step, slot);
      }
    }
  }

  // ---------------------------------------------------------------- every run

  lemma {:induction false} AnsweredAlways(conns: Connections, trace: seq<World>, steps: seq<Step>, n: nat)
    requires Run(conns, trace, steps) && n <= |steps|
    ensures Answered(trace[n])
  {
    if n == 0 {
      forall slot
        ensures SlotOk(START, slot)
      {
        assert !WasResumed(START, slot);
      }
    } else {
      AnsweredAlways(conns, trace, steps, n - 1);
      AnsweredStep(conns, trace[n - 1], steps[n - 1]);
    }
  }

  /**
   For any number of submitters, interleaved at every step: `resume` is handed to the backend at
   most once per interrupt, only while that interrupt was pending at the submitted revision and the
   boundary accepted it.
   */
  lemma OneResumePerInterrupt(conns: Connections, trace: seq<World>, steps: seq<Step>, n: nat)
    requires Run(conns, trace, steps) && n <= |steps|
    ensures
      var rs := trace[n].resumes;
      && (forall i, j | 0 <= i < j < |rs| :: rs[i].slot != rs[j].slot)
      && (forall i | 0 <= i < |rs| :: rs[i].slot.interrupt in rs[i].seen.pending && rs[i].revision == rs[i].seen.revision && rs[i].granted)
  {
    AnsweredAlways(conns, trace, steps, n);
    var w := trace[n];
    forall i | 0 <= i < |w.resumes|
      ensures Justified(w.resumes[i]) && forall j | 0 <= j < |w.resumes| && j != i :: w.resumes[j].slot != w.resumes[i].slot
    {
      assert SlotOk(w, w.resumes[i].slot);
    }
  }

  /** A recorded outcome stays as it is, and says what the backend answered: resumed, ambiguous, or never asked. */
  lemma OutcomeIsTrueAndFinal(conns: Connections, trace: seq<World>, steps: seq<Step>, i: nat, j: nat, slot: R.Slot)
    requires Run(conns, trace, steps) && i <= j <= |steps| && slot in trace[i].answers && trace[i].answers[slot].outcome.Some?
    ensures slot in trace[j].answers && trace[j].answers[slot] == trace[i].answers[slot]
    ensures
      match trace[j].answers[slot].outcome.value
      case Resumed => (slot, true) in trace[j].replies && (slot, false) !in trace[j].replies
      case Rejected => !WasResumed(trace[j], slot)
      case Unknown => (slot, true) !in trace[j].replies
    ensures (slot, false) in trace[j].replies ==> trace[j].answers[slot].outcome == Some(R.Unknown)
    ensures (slot, true) in trace[j].replies ==> trace[j].answers[slot].outcome == Some(R.Resumed)
  {
    for k := i to j
      invariant slot in trace[k].answers && trace[k].answers[slot] == trace[i].answers[slot]
    {
      AnswersStay(conns, trace[k], steps[k], slot);
    }
    AnsweredAlways(conns, trace, steps, j);
    assert SlotOk(trace[j], slot);
  }

  /** Outcomes and claims are never taken back. */
  lemma AnswersStay(conns: Connections, w: World, step: Step, slot: R.Slot)
    requires Enabled(conns, w, step) && slot in w.answers
    ensures
      var v := Do(conns, w, step);
      slot in v.answers && v.answers[slot].claimedAt == w.answers[slot].claimedAt
      && (w.answers[slot].outcome.Some? ==> v.answers[slot] == w.answers[slot])
  {
  }
}

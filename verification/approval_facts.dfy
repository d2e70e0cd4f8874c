/** What one submitted answer leaves behind (src/cord_runtime/approval_inbox.py). */
module ApprovalFacts {
  import opened Basics
  import opened Protocol
  import opened Routes
  import opened ApprovalInbox
  import RouteFacts
  import SweepFacts
  import K = RunContinuity
  import L = DeploymentLifecycle
  import P = PendingCompletions
  import R = ResponseDedupe

  predicate Accepted(q: Responding, env: Environment) {
    env.state.Some? && Accepts(SeenOf(env.state.value), q.slot.interrupt, q.revision, env.granted)
  }

  predicate StartFails(conns: Connections, w: World, q: Responding, probe: L.Probe) {
    L.EnsureStarted(w.records, q.slot.deployment, Conn(conns, q.slot.deployment), q.now, probe).1.FailedToStart?
  }

  lemma JudgedTells(conns: Connections, w: World, q: Responding, env: Environment, seen: Seen, staleAfter: real, supply: seq<Answer>)
    ensures
      var result := Judged(conns, w, q, env, seen, staleAfter, supply).result;
      var accepted := Accepts(seen, q.slot.interrupt, q.revision, env.granted);
      result == if !accepted then NotAccepted else if Blank(env.assistant) then ResumeRejected
                else if env.resumed.Ambiguous? then AmbiguousResume else ResumedRun
  {
  }

  /** Each result is given exactly in its case. */
  lemma ResultTells(conns: Connections, w: World, q: Responding, env: Environment, staleAfter: real, supply: seq<Answer>)
    ensures
      var result := Responded(conns, w, q, env, staleAfter, supply).result;
      var reached := !StartFails(conns, w, q, env.probe);
      var first := reached && q.slot !in w.answers;
      && (result.DeploymentUnavailable? <==> !reached)
      && (result.DuplicateAnswer? <==> reached && q.slot in w.answers)
      && (result.UnknownState? <==> first && env.state.None?)
      && (result.NotAccepted? <==> first && env.state.Some? && !Accepted(q, env))
      && (result.ResumeRejected? <==> first && Accepted(q, env) && Blank(env.assistant))
      && (result.AmbiguousResume? <==> first && Accepted(q, env) && !Blank(env.assistant) && env.resumed.Ambiguous?)
      && (result.ResumedRun? <==> first && Accepted(q, env) && !Blank(env.assistant) && env.resumed.Answers?)
  {
    var v := Starting(conns, w, q, env.probe).0;
    if env.state.Some? {
      JudgedTells(conns, v.(answers := R.Claimed(v.answers, q.slot, q.now)), q, env, SeenOf(env.state.value), staleAfter, supply);
    }
  }

  // ---------------------------------------------------------------- the interrupt

  function OutcomeOf(result: SubmissionResult): Option<R.Outcome> {
    match result
    case UnknownState => Some(R.Unknown)
    case AmbiguousResume => Some(R.Unknown)
    case NotAccepted => Some(R.Rejected)
    case ResumedRun => Some(R.Resumed)
    case _ => None
  }

  predicate Touches(result: SubmissionResult) {
    !result.DeploymentUnavailable? && !result.DuplicateAnswer?
  }

  predicate HandsOver(result: SubmissionResult) {
    result.AmbiguousResume? || result.ResumedRun?
  }

  /** The record a submission leaves: claimed by it, with the outcome its result stands for. */
  function RecordFor(q: Responding, result: SubmissionResult): R.Record {
    R.Record(q.now, OutcomeOf(result), if OutcomeOf(result).Some? then Some(q.now) else None)
  }

  /** The record, the resumes and the replies of a call that claimed the interrupt. */
  ghost predicate Closes(w: World, a: Answered, q: Responding, env: Environment) {
    && a.world.answers == w.answers[q.slot := RecordFor(q, a.result)]
    && a.world.resumes == w.resumes + (if HandsOver(a.result) && env.state.Some? then [Resumption(q.slot, q.revision, SeenOf(env.state.value), true)] else [])
    && a.world.replies == w.replies + (if HandsOver(a.result) then [(q.slot, a.result.ResumedRun?)] else [])
  }

  lemma SettledCloses(conns: Connections, w: World, q: Responding, at: SubmitPc, staleAfter: real, supply: seq<Answer>)
    requires at.Settling?
    ensures
      var a := SettledThread(conns, w, q, at, staleAfter, supply);
      a.result.ResumedRun? && a.world.answers == w.answers && a.world.resumes == w.resumes && a.world.replies == w.replies
  {
    var v := Settled(w, q, at);
    if ApprovalInbox.Reports(at) {
      AllRoutedWith(conns, v, v.calls, v.sweep, Finished(FinishFor(q, at)), q.now, staleAfter, supply);
    }
  }

  lemma LostCloses(w: World, q: Responding)
    requires q.slot in w.answers && w.answers[q.slot] == R.Record(q.now, None, None)
    ensures
      var v := Lost(w, q);
      v.answers == w.answers[q.slot := RecordFor(q, AmbiguousResume)] && v.resumes == w.resumes && v.replies == w.replies + [(q.slot, false)]
  {
  }

  lemma HandedOverCloses(conns: Connections, w: World, q: Responding, env: Environment, staleAfter: real, supply: seq<Answer>)
    requires Accepted(q, env) && q.slot in w.answers && w.answers[q.slot] == R.Record(q.now, None, None)
    ensures Closes(w, HandedOver(conns, w, q, env, SeenOf(env.state.value), staleAfter, supply), q, env)
  {
    var v := ApprovalInbox.Sent(w, q, SeenOf(env.state.value), env.granted);
    if env.resumed.Answers? {
      var run, reply := env.resumed.run, env.resumed.reply;
      SettledCloses(conns, Noted(Recorded(v, q, run), q, R.Resumed), q, Resettling(v, q, env, run, reply), staleAfter, supply);
    } else {
      LostCloses(v, q);
    }
  }

  lemma JudgedCloses(conns: Connections, w: World, q: Responding, env: Environment, staleAfter: real, supply: seq<Answer>)
    requires q.slot in w.answers && w.answers[q.slot] == R.Record(q.now, None, None) && env.state.Some?
    ensures Closing(w, Judged(conns, w, q, env, SeenOf(env.state.value), staleAfter, supply), q, env)
  {
    if Accepted(q, env) && !Blank(env.assistant) {
      HandedOverCloses(conns, w, q, env, staleAfter, supply);
    } else {
      assert w.resumes + [] == w.resumes && w.replies + [] == w.replies;
    }
  }

  ghost predicate Closing(w: World, a: Answered, q: Responding, env: Environment) {
    Closes(w, a, q, env) && Touches(a.result) && (HandsOver(a.result) ==> Accepted(q, env))
  }

  lemma ReadCloses(conns: Connections, w: World, q: Responding, env: Environment, staleAfter: real, supply: seq<Answer>)
    requires q.slot in w.answers && w.answers[q.slot] == R.Record(q.now, None, None)
    ensures Closing(w, ReadAndJudged(conns, w, q, env, staleAfter, supply), q, env)
  {
    if env.state.Some? {
      JudgedCloses(conns, w, q, env, staleAfter, supply);
    }
  }

  /** What a submission does to its interrupt: one record, its result's, and at most one resume. */
  ghost predicate InterruptIs(w: World, v: World, q: Responding, env: Environment, result: SubmissionResult) {
    if Touches(result) then
      && q.slot !in w.answers && v.answers == w.answers[q.slot := RecordFor(q, result)]
      && (HandsOver(result) ==> Accepted(q, env))
      && v.resumes == w.resumes + (if HandsOver(result) && env.state.Some? then [Resumption(q.slot, q.revision, SeenOf(env.state.value), true)] else [])
      && v.replies == w.replies + (if HandsOver(result) then [(q.slot, result.ResumedRun?)] else [])
    else v.answers == w.answers && v.resumes == w.resumes && v.replies == w.replies
  }

  lemma AnsweredCloses(conns: Connections, w: World, q: Responding, env: Environment, staleAfter: real, supply: seq<Answer>)
    ensures
      var a := AnsweredOnce(conns, w, q, env, staleAfter, supply);
      InterruptIs(w, a.world, q, env, a.result) && !a.result.DeploymentUnavailable?
  {
    if q.slot !in w.answers {
      var claimed := w.(answers := R.Claimed(w.answers, q.slot, q.now));
      ReadCloses(conns, claimed, q, env, staleAfter, supply);
      var r := RecordFor(q, AnsweredOnce(conns, w, q, env, staleAfter, supply).result);
      assert claimed.answers[q.slot := r] == w.answers[q.slot := r];
    }
  }

  /**
   The interrupt a submission claims gets exactly one record, its result's; every other record is left
   alone. `resume` is handed over once, for a pending interrupt at a matching revision with the grant,
   or not at all.
   */
  lemma InterruptAfter(conns: Connections, w: World, q: Responding, env: Environment, staleAfter: real, supply: seq<Answer>)
    ensures
      var s := Responded(conns, w, q, env, staleAfter, supply);
      InterruptIs(w, s.world, q, env, s.result)
  {
    var (v, started) := Starting(conns, w, q, env.probe);
    if !started.FailedToStart? {
      AnsweredCloses(conns, v, q, env, staleAfter, supply);
    }
  }

  // ---------------------------------------------------------------- the Deployment

  /** A call whose Run may still execute keeps its activity claim; any other gives it back. */
  predicate Keeps(result: SubmissionResult, env: Environment) {
    result.AmbiguousResume? || (result.ResumedRun? && env.resumed.Answers? && (env.resumed.reply.DeadlineReached? || env.resumed.reply.TransportError?))
  }

  predicate Succeeds(env: Environment) {
    env.resumed.Answers? && env.resumed.reply.ResumeSucceeded?
  }

  /** No cascade: neither claims nor records move before the release. */
  predicate Still(w: World, a: Answered, env: Environment) {
    && a.world.submissions == w.submissions && a.world.claims == w.claims && a.world.finished == w.finished && a.world.records == w.records
    && (a.keep <==> Keeps(a.result, env))
  }

  lemma HandedOverStill(conns: Connections, w: World, q: Responding, env: Environment, seen: Seen, staleAfter: real, supply: seq<Answer>)
    requires !Succeeds(env)
    ensures Still(w, HandedOver(conns, w, q, env, seen, staleAfter, supply), env)
  {
    var v := ApprovalInbox.Sent(w, q, seen, env.granted);
    if env.resumed.Answers? {
      var u, at := Noted(Recorded(v, q, env.resumed.run), q, R.Resumed), Resettling(v, q, env, env.resumed.run, env.resumed.reply);
      SettledStill(conns, u, q, at, env, staleAfter, supply);
    } else {
      LostStill(v, q);
    }
  }

  lemma LostStill(w: World, q: Responding)
    ensures
      var v := Lost(w, q);
      v.submissions == w.submissions && v.claims == w.claims && v.finished == w.finished && v.records == w.records
  {
  }

  lemma SettledStill(conns: Connections, w: World, q: Responding, at: SubmitPc, env: Environment, staleAfter: real, supply: seq<Answer>)
    requires at.Settling? && env.resumed.Answers? && at.outcome == env.resumed.reply && !Succeeds(env)
    ensures Still(w, SettledThread(conns, w, q, at, staleAfter, supply), env)
  {
  }

  lemma ReadStill(conns: Connections, w: World, q: Responding, env: Environment, staleAfter: real, supply: seq<Answer>)
    requires !Succeeds(env)
    ensures Still(w, ReadAndJudged(conns, w, q, env, staleAfter, supply), env)
  {
    if env.state.Some? {
      HandedOverStill(conns, w, q, env, SeenOf(env.state.value), staleAfter, supply);
    }
  }

  lemma AnsweredStill(conns: Connections, w: World, q: Responding, env: Environment, staleAfter: real, supply: seq<Answer>)
    requires !Succeeds(env)
    ensures Still(w, AnsweredOnce(conns, w, q, env, staleAfter, supply), env)
  {
    ReadStill(conns, w.(answers := R.Claimed(w.answers, q.slot, q.now)), q, env, staleAfter, supply);
  }

  /** Unless a cascade follows, the activity count is afterwards what the start made it, less the claim given back. */
  lemma ActivityAfter(conns: Connections, w: World, q: Responding, env: Environment, staleAfter: real, supply: seq<Answer>)
    requires !Succeeds(env)
    ensures
      var s := Responded(conns, w, q, env, staleAfter, supply);
      var (records, started) := L.EnsureStarted(w.records, q.slot.deployment, Conn(conns, q.slot.deployment), q.now, env.probe);
      && s.world.submissions == w.submissions && s.world.claims == w.claims && s.world.finished == w.finished
      && s.world.records == if started.FailedToStart? || Keeps(s.result, env) then records
                            else L.ReleaseActive(records, q.slot.deployment, Conn(conns, q.slot.deployment), q.now)
  {
    AnsweredStill(conns, Starting(conns, w, q, env.probe).0, q, env, staleAfter, supply);
  }

  // ---------------------------------------------------------------- the Thread

  /** How the tracked entry of a resumed Thread stands. */
  predicate EntryAfter(w: World, v: World, q: Responding, at: SubmitPc)
    requires at.Settling?
  {
    var key := KeyOf(q.slot);
    if at.outcome.ResumeSucceeded? then key !in v.entries
    else if (at.outcome.ResumeInterrupted? || at.outcome.DeadlineReached?) && P.Recordable(key, Resettled(q, at)) then
      && key in v.entries && v.entries[key].invocation == at.run && !v.entries[key].concurrencyHeld
      && (v.entries[key].deploymentHeld <==> at.outcome.DeadlineReached?) && v.entries[key].cascadeDepth == at.depth
    else SweepFacts.SameEntry(v.entries, w.entries, key)
  }

  /** A resumed Thread: its Run recorded, its entry by how it ended, and a success reported under its logical Run and routed. */
  ghost predicate ThreadIs(w: World, v: World, q: Responding, at: SubmitPc)
    requires at.Settling?
  {
    && KeyOf(q.slot) in v.threads && v.threads[KeyOf(q.slot)].runId == at.logicalRun && EntryAfter(w, v, q, at)
    && (ApprovalInbox.Reports(at) ==> RouteFacts.ReportedAndRouted(w, v, FinishFor(q, at)))
    && (!ApprovalInbox.Reports(at) ==> v.finished == w.finished && v.submissions == w.submissions)
  }

  lemma SettledEntry(w: World, q: Responding, at: SubmitPc)
    requires at.Settling?
    ensures EntryAfter(w, Settled(w, q, at), q, at)
  {
  }

  lemma SettledThreadIs(conns: Connections, w: World, q: Responding, at: SubmitPc, staleAfter: real, supply: seq<Answer>)
    requires at.Settling? && Fresh(w.seen, supply) && KeyOf(q.slot) in w.seen
    requires KeyOf(q.slot) in w.threads && w.threads[KeyOf(q.slot)].runId == at.logicalRun
    ensures ThreadIs(w, SettledThread(conns, w, q, at, staleAfter, supply).world, q, at)
  {
    var u := Settled(w, q, at);
    SettledEntry(w, q, at);
    if ApprovalInbox.Reports(at) {
      var v := AllRouted(conns, u, Finished(FinishFor(q, at)), q.now, staleAfter, supply).world;
      RouteFacts.CascadeKeeps(conns, u, Finished(FinishFor(q, at)), q.now, staleAfter, supply);
      RouteFacts.CascadeTrail(conns, u, Finished(FinishFor(q, at)), q.now, staleAfter, supply);
      assert RouteFacts.SameAt(u, v, KeyOf(q.slot));
    }
  }

  /** The stores as the accepted resume finds them settled, up to its record. */
  predicate Alike(w: World, u: World, q: Responding, run: string) {
    && u.entries == w.entries && u.finished == w.finished && u.submissions == w.submissions
    && u.threads == K.Recorded(w.threads, KeyOf(q.slot), run) && u.seen == w.seen
  }

  lemma HandedOverThread(conns: Connections, w: World, q: Responding, env: Environment, seen: Seen, staleAfter: real, supply: seq<Answer>)
    requires env.resumed.Answers? && Fresh(w.seen, supply) && KeyOf(q.slot) in w.seen
    ensures ThreadIs(w, HandedOver(conns, w, q, env, seen, staleAfter, supply).world, q, Resettling(w, q, env, env.resumed.run, env.resumed.reply))
  {
    var v := ApprovalInbox.Sent(w, q, seen, env.granted);
    var u := Noted(Recorded(v, q, env.resumed.run), q, R.Resumed);
    var at := Resettling(w, q, env, env.resumed.run, env.resumed.reply);
    assert Resettling(v, q, env, env.resumed.run, env.resumed.reply) == at && Alike(w, u, q, env.resumed.run);
    SettledThreadIs(conns, u, q, at, staleAfter, supply);
  }

  lemma AnsweredThread(conns: Connections, w: World, q: Responding, env: Environment, staleAfter: real, supply: seq<Answer>)
    requires AnsweredOnce(conns, w, q, env, staleAfter, supply).result.ResumedRun?
    requires env.resumed.Answers? && Fresh(w.seen, supply) && KeyOf(q.slot) in w.seen
    ensures ThreadIs(w, AnsweredOnce(conns, w, q, env, staleAfter, supply).world, q, Resettling(w, q, env, env.resumed.run, env.resumed.reply))
  {
    var v := w.(answers := R.Claimed(w.answers, q.slot, q.now));
    assert Resettling(v, q, env, env.resumed.run, env.resumed.reply) == Resettling(w, q, env, env.resumed.run, env.resumed.reply);
    HandedOverThread(conns, v, q, env, SeenOf(env.state.value), staleAfter, supply);
  }

  /** What is said of a Thread does not look at the Deployment's record. */
  lemma ThreadStays(w: World, v: World, u: World, x: World, q: Responding, at: SubmitPc)
    requires at.Settling? && ThreadIs(w, v, q, at)
    requires u.entries == w.entries && u.finished == w.finished && u.submissions == w.submissions
    requires x.entries == v.entries && x.threads == v.threads && x.finished == v.finished && x.submissions == v.submissions
    ensures ThreadIs(u, x, q, at)
  {
  }

  lemma ResumedIsAnswered(conns: Connections, w: World, q: Responding, env: Environment, staleAfter: real, supply: seq<Answer>)
    requires Responded(conns, w, q, env, staleAfter, supply).result.ResumedRun?
    ensures
      var x := Responded(conns, w, q, env, staleAfter, supply).world;
      var a := AnsweredOnce(conns, Starting(conns, w, q, env.probe).0, q, env, staleAfter, supply);
      && a.result.ResumedRun? && x.entries == a.world.entries && x.threads == a.world.threads
      && x.finished == a.world.finished && x.submissions == a.world.submissions
  {
  }

  /** What becomes of the Thread whose interrupt was answered. */
  lemma ThreadAfter(conns: Connections, w: World, q: Responding, env: Environment, staleAfter: real, supply: seq<Answer>)
    requires Responded(conns, w, q, env, staleAfter, supply).result.ResumedRun? && env.resumed.Answers?
    requires Fresh(w.seen + {KeyOf(q.slot)}, supply)
    ensures ThreadIs(w, Responded(conns, w, q, env, staleAfter, supply).world, q, Resettling(w, q, env, env.resumed.run, env.resumed.reply))
  {
    var v := Starting(conns, w, q, env.probe).0;
    assert Resettling(v, q, env, env.resumed.run, env.resumed.reply) == Resettling(w, q, env, env.resumed.run, env.resumed.reply);
    ResumedIsAnswered(conns, w, q, env, staleAfter, supply);
    AnsweredThread(conns, v, q, env, staleAfter, supply);
    ThreadStays(v, AnsweredOnce(conns, v, q, env, staleAfter, supply).world, w, Responded(conns, w, q, env, staleAfter, supply).world, q,
                Resettling(w, q, env, env.resumed.run, env.resumed.reply));
  }
}

/** One operator's answer to one interrupt, as the program runs it alone (src/cord_runtime/approval_inbox.py). */
module ApprovalInbox {
  import opened Basics
  import opened Protocol
  import opened Board
  import opened Routes
  import Router
  import C = Concurrency
  import K = RunContinuity
  import L = DeploymentLifecycle
  import R = ResponseDedupe

  // ---------------------------------------------------------------- reading a Thread's state

  datatype Interrupt = Interrupt(id: string)

  /** One task of the Thread; a task with a result keeps its answered interrupts. */
  datatype Task = Task(hasResult: bool, interrupts: seq<Interrupt>)

  datatype ThreadState = ThreadState(tasks: seq<Task>, checkpoint: Option<string>, checkpointId: Option<string>)

  function InterruptsOf(tasks: seq<Task>): seq<Interrupt> {
    if |tasks| == 0 then []
    else InterruptsOf(tasks[..|tasks| - 1]) + if Last(tasks).hasResult then [] else Last(tasks).interrupts
  }

  function PendingSet(tasks: seq<Task>): set<string> {
    set i | 0 <= i < |InterruptsOf(tasks)| :: InterruptsOf(tasks)[i].id
  }

  /** An interrupt is pending exactly when an unfinished task carries it. */
  lemma {:induction false} PendingIsUnfinished(tasks: seq<Task>, id: string)
    ensures id in PendingSet(tasks)
            <==> exists t, k | 0 <= t < |tasks| && 0 <= k < |tasks[t].interrupts| :: !tasks[t].hasResult && tasks[t].interrupts[k].id == id
  {
    if |tasks| > 0 {
      var front, last := tasks[..|tasks| - 1], Last(tasks);
      PendingIsUnfinished(front, id);
      var before, all := InterruptsOf(front), InterruptsOf(tasks);
      if t, k :| 0 <= t < |tasks| && 0 <= k < |tasks[t].interrupts| && !tasks[t].hasResult && tasks[t].interrupts[k].id == id {
        if t < |front| {
          assert front[t] == tasks[t];
          var i :| 0 <= i < |before| && before[i].id == id;
          assert all[i] == before[i];
        } else {
          assert all[|before| + k] == last.interrupts[k];
        }
      }
      if i :| 0 <= i < |all| && all[i].id == id {
        if i < |before| {
          assert before[i] == all[i];
          var t, k :| 0 <= t < |front| && 0 <= k < |front[t].interrupts| && !front[t].hasResult && front[t].interrupts[k].id == id;
          assert tasks[t] == front[t];
        } else {
          assert tasks[|front|].interrupts[i - |before|].id == id;
        }
      }
    }
  }

  method PendingIds(tasks: seq<Task>) returns (ids: set<string>)
    ensures ids == PendingSet(tasks)
  {
    var found: seq<Interrupt> := [];
    for t := 0 to |tasks|
      invariant found == InterruptsOf(tasks[..t])
    {
      assert tasks[..t + 1][..t] == tasks[..t];
      if tasks[t].hasResult { continue; }
      found := found + tasks[t].interrupts;
    }
    assert tasks[..|tasks|] == tasks;
    ids := set i | 0 <= i < |found| :: found[i].id;
  }

  /** The checkpoint's own id, or the bare field. */
  function RevisionOf(state: ThreadState): Option<string> {
    if state.checkpoint.Some? && state.checkpoint.value != "" then state.checkpoint else state.checkpointId
  }

  // ---------------------------------------------------------------- one submission

  /** `backend.resume`: ambiguous transport, or a result. */
  datatype Resumed = Ambiguous | Answers(run: string, reply: ResumeOutcome)

  /** What the Deployment, the backend and the authority answer. */
  datatype Environment = Environment(
    probe: L.Probe, state: Option<ThreadState>, assistant: string, subject: string, granted: bool, resumed: Resumed)

  datatype SubmissionResult = DeploymentUnavailable | DuplicateAnswer | UnknownState | NotAccepted | AmbiguousResume | ResumeRejected | ResumedRun

  function SeenOf(state: ThreadState): Seen {
    Seen(PendingSet(state.tasks), RevisionOf(state))
  }

  // ---------------------------------------------------------------- what a submission does to the stores

  /** The `try` block: the stores as it leaves them, and whether the activity claim stays with the Run. */
  datatype Answered = Answered(world: World, result: SubmissionResult, keep: bool, rest: seq<Answer>)

  datatype Submitted = Submitted(world: World, result: SubmissionResult, rest: seq<Answer>)

  function Noted(w: World, q: Responding, outcome: R.Outcome): World {
    w.(answers := R.WithOutcome(w.answers, q.slot, outcome, q.now))
  }

  /** The identity a finish needs: the subject falls back on the tracked entry, the depth comes from it. */
  function Identity(w: World, q: Responding, env: Environment): Pair {
    C.Pair(env.assistant, SubjectOf(w, KeyOf(q.slot), env.subject))
  }

  /** The resumed Run's result: under its Thread's logical Run, and by how it ended. */
  function Resettling(w: World, q: Responding, env: Environment, run: string, reply: ResumeOutcome): SubmitPc {
    Settling(Identity(w, q, env), DepthOf(w, KeyOf(q.slot)), run, K.Recorded(w.threads, KeyOf(q.slot), run)[KeyOf(q.slot)].runId, reply)
  }

  function FinishFor(q: Responding, at: SubmitPc): Finish
    requires at.Settling?
  {
    Finish(KeyOf(q.slot), at.logicalRun, at.pair, at.depth)
  }

  predicate Reports(at: SubmitPc)
    requires at.Settling?
  {
    at.outcome.ResumeSucceeded? && at.pair.Named()
  }

  function Recorded(w: World, q: Responding, run: string): World {
    w.(threads := K.Recorded(w.threads, KeyOf(q.slot), run), replies := w.replies + [(q.slot, true)])
  }

  function Settled(w: World, q: Responding, at: SubmitPc): World
    requires at.Settling?
  {
    w.(entries := SettledEntries(w.entries, q, at), finished := if Reports(at) then w.finished + [FinishFor(q, at)] else w.finished)
  }

  function SettledThread(conns: Connections, w: World, q: Responding, at: SubmitPc, staleAfter: real, supply: seq<Answer>): Answered
    requires at.Settling?
  {
    var v := Settled(w, q, at);
    if Reports(at) then
      var o := AllRouted(conns, v, Finished(FinishFor(q, at)), q.now, staleAfter, supply);
      Answered(o.world, ResumedRun, false, o.rest)
    else Answered(v, ResumedRun, at.outcome.DeadlineReached? || at.outcome.TransportError?, supply)
  }

  function Sent(w: World, q: Responding, seen: Seen, granted: bool): World {
    w.(resumes := w.resumes + [Resumption(q.slot, q.revision, seen, granted)])
  }

  function Lost(w: World, q: Responding): World {
    Noted(w, q, R.Unknown).(replies := w.replies + [(q.slot, false)])
  }

  /** The one `resume`, and what its answer leaves. */
  function HandedOver(conns: Connections, w: World, q: Responding, env: Environment, seen: Seen, staleAfter: real, supply: seq<Answer>): Answered {
    var v := Sent(w, q, seen, env.granted);
    match env.resumed
    case Ambiguous => Answered(Lost(v, q), AmbiguousResume, true, supply)
    case Answers(run, reply) =>
      SettledThread(conns, Noted(Recorded(v, q, run), q, R.Resumed), q, Resettling(v, q, env, run, reply), staleAfter, supply)
  }

  function Judged(conns: Connections, w: World, q: Responding, env: Environment, seen: Seen, staleAfter: real, supply: seq<Answer>): Answered {
    if !Accepts(seen, q.slot.interrupt, q.revision, env.granted) then Answered(Noted(w, q, R.Rejected), NotAccepted, false, supply)
    else if Blank(env.assistant) then Answered(w, ResumeRejected, false, supply)
    else HandedOver(conns, w, q, env, seen, staleAfter, supply)
  }

  function ReadAndJudged(conns: Connections, w: World, q: Responding, env: Environment, staleAfter: real, supply: seq<Answer>): Answered {
    if env.state.None? then Answered(Noted(w, q, R.Unknown), UnknownState, false, supply)
    else Judged(conns, w, q, env, SeenOf(env.state.value), staleAfter, supply)
  }

  function AnsweredOnce(conns: Connections, w: World, q: Responding, env: Environment, staleAfter: real, supply: seq<Answer>): Answered {
    if q.slot in w.answers then Answered(w, DuplicateAnswer, false, supply)
    else ReadAndJudged(conns, w.(answers := R.Claimed(w.answers, q.slot, q.now)), q, env, staleAfter, supply)
  }

  function Starting(conns: Connections, w: World, q: Responding, probe: L.Probe): (World, L.Started) {
    var (records, started) := L.EnsureStarted(w.records, q.slot.deployment, Conn(conns, q.slot.deployment), q.now, probe);
    (w.(seen := w.seen + {KeyOf(q.slot)}, records := records), started)
  }

  function Closed(conns: Connections, w: World, q: Responding): World {
    w.(records := L.ReleaseActive(w.records, q.slot.deployment, Conn(conns, q.slot.deployment), q.now))
  }

  /** One whole submission. */
  function Responded(conns: Connections, w: World, q: Responding, env: Environment, staleAfter: real, supply: seq<Answer>): Submitted {
    var (v, started) := Starting(conns, w, q, env.probe);
    if started.FailedToStart? then Submitted(v, SubmissionResult.DeploymentUnavailable, supply)
    else
      var a := AnsweredOnce(conns, v, q, env, staleAfter, supply);
      Submitted(if a.keep then a.world else Closed(conns, a.world, q), a.result, a.rest)
  }

  // ---------------------------------------------------------------- the steps of a submission, as equations

  /** The world with one submission where it stands. */
  function Sub(w: World, id: nat, q: Responding, at: SubmitPc): World {
    With(w, w.calls[id := Submit(q, at)], w.sweep)
  }

  predicate Stands(w: World, id: nat, q: Responding, at: SubmitPc) {
    id in w.calls && w.calls[id] == Submit(q, at)
  }

  lemma SubAgain(w: World, id: nat, q: Responding, at: SubmitPc, next: SubmitPc)
    ensures Sub(Sub(w, id, q, at), id, q, next) == Sub(w, id, q, next)
  {
  }

  lemma SubGone(w: World, id: nat, q: Responding, at: SubmitPc)
    requires id !in w.calls
    ensures Sub(w, id, q, at).(calls := Sub(w, id, q, at).calls - {id}) == w
  {
    assert w.calls[id := Submit(q, at)] - {id} == w.calls;
  }

  lemma RespondIs(conns: Connections, w: World, id: nat, q: Responding)
    requires id !in w.calls && Registered(conns, q.slot.deployment) && q.slot.Named()
    ensures Enabled(conns, w, Respond(id, q.slot, q.revision, q.now))
    ensures Do(conns, w, Respond(id, q.slot, q.revision, q.now)) == Sub(w, id, q, Opening).(seen := w.seen + {KeyOf(q.slot)})
  {
  }

  lemma StartIs(conns: Connections, w: World, id: nat, q: Responding, probe: L.Probe)
    requires Stands(w, id, q, Opening)
    ensures Enabled(conns, w, Start(id, probe))
    ensures
      var (records, started) := L.EnsureStarted(w.records, q.slot.deployment, Conn(conns, q.slot.deployment), q.now, probe);
      && StartResult(conns, w, Start(id, probe)) == started
      && Do(conns, w, Start(id, probe))
         == (if started.FailedToStart? then w.(calls := w.calls - {id}) else Sub(w, id, q, Opened)).(records := records)
  {
  }

  lemma ClaimAnswerIs(conns: Connections, w: World, id: nat, q: Responding)
    requires Stands(w, id, q, Opened)
    ensures Enabled(conns, w, ClaimAnswer(id))
    ensures Do(conns, w, ClaimAnswer(id))
            == Sub(w, id, q, if q.slot in w.answers then Closing else Claimed).(answers := R.Claimed(w.answers, q.slot, q.now))
  {
  }

  lemma ReadStateIs(conns: Connections, w: World, id: nat, q: Responding, state: Option<Seen>)
    requires Stands(w, id, q, Claimed)
    ensures Enabled(conns, w, ReadState(id, state))
    ensures Do(conns, w, ReadState(id, state))
            == if state.None? then Sub(Noted(w, q, R.Unknown), id, q, Closing) else Sub(w, id, q, Read(state.value))
  {
  }

  lemma AuthorizeIs(conns: Connections, w: World, id: nat, q: Responding, seen: Seen, granted: bool, pair: Pair)
    requires Stands(w, id, q, Read(seen))
    ensures Enabled(conns, w, Authorize(id, granted, pair.assistant, pair.subject))
    ensures Do(conns, w, Authorize(id, granted, pair.assistant, pair.subject))
            == if Accepts(seen, q.slot.interrupt, q.revision, granted) then Sub(w, id, q, Authorized(seen, granted, pair))
               else Sub(Noted(w, q, R.Rejected), id, q, Closing)
    ensures !Accepts(seen, q.slot.interrupt, q.revision, granted) ==>
              NextAnswers(conns, w, Authorize(id, granted, pair.assistant, pair.subject)) == R.WithOutcome(w.answers, q.slot, R.Rejected, q.now)
  {
  }

  lemma ReadPendingIs(conns: Connections, w: World, id: nat, q: Responding, seen: Seen, granted: bool, pair: Pair)
    requires Stands(w, id, q, Authorized(seen, granted, pair))
    ensures Enabled(conns, w, ReadPending(id))
    ensures Do(conns, w, ReadPending(id))
            == Sub(w, id, q, Prepared(seen, granted, C.Pair(pair.assistant, SubjectOf(w, KeyOf(q.slot), pair.subject)), DepthOf(w, KeyOf(q.slot))))
  {
  }

  lemma ResumeIs(conns: Connections, w: World, id: nat, q: Responding, at: SubmitPc)
    requires at.Prepared? && Stands(w, id, q, at)
    ensures Enabled(conns, w, Resume(id))
    ensures Do(conns, w, Resume(id))
            == if Blank(at.pair.assistant) then Sub(w, id, q, Closing)
               else Sub(w, id, q, Resuming(at.pair, at.depth)).(resumes := w.resumes + [Resumption(q.slot, q.revision, at.seen, at.granted)])
  {
  }

  lemma ResumeFailsIs(conns: Connections, w: World, id: nat, q: Responding, pair: Pair, depth: nat)
    requires Stands(w, id, q, Resuming(pair, depth))
    ensures Enabled(conns, w, ResumeFails(id))
    ensures Do(conns, w, ResumeFails(id))
            == Noted(w, q, R.Unknown).(calls := w.calls - {id}, replies := w.replies + [(q.slot, false)])
  {
  }

  lemma ResumeReturnsIs(conns: Connections, w: World, id: nat, q: Responding, pair: Pair, depth: nat, run: string, reply: ResumeOutcome)
    requires Stands(w, id, q, Resuming(pair, depth)) && !Blank(run)
    ensures Enabled(conns, w, ResumeReturns(id, run, reply))
    ensures
      var logicalRun := K.Recorded(w.threads, KeyOf(q.slot), run)[KeyOf(q.slot)].runId;
      Do(conns, w, ResumeReturns(id, run, reply)) == Sub(Recorded(w, q, run), id, q, Returned(pair, depth, run, logicalRun, reply))
  {
  }

  lemma RecordResumedIs(conns: Connections, w: World, id: nat, q: Responding, at: SubmitPc)
    requires at.Returned? && Stands(w, id, q, at)
    ensures Enabled(conns, w, RecordResumed(id))
    ensures Do(conns, w, RecordResumed(id))
            == Sub(Noted(w, q, R.Resumed), id, q, Settling(at.pair, at.depth, at.run, at.logicalRun, at.outcome))
  {
  }

  lemma SettleIs(conns: Connections, w: World, id: nat, q: Responding, at: SubmitPc)
    requires at.Settling? && Stands(w, id, q, at)
    ensures Enabled(conns, w, Settle(id))
    ensures Do(conns, w, Settle(id))
            == if at.outcome.DeadlineReached? || at.outcome.TransportError? then Settled(w, q, at).(calls := w.calls - {id})
               else Sub(Settled(w, q, at), id, q, Closing)
  {
  }

  lemma CloseIs(conns: Connections, w: World, id: nat, q: Responding)
    requires Stands(w, id, q, Closing)
    ensures Enabled(conns, w, ReleaseActive(id))
    ensures Do(conns, w, ReleaseActive(id)) == Closed(conns, w, q).(calls := w.calls - {id})
  {
  }

  lemma NotedAt(u: World, id: nat, q: Responding, at: SubmitPc, outcome: R.Outcome, next: SubmitPc)
    ensures Sub(Noted(Sub(u, id, q, at), q, outcome), id, q, next) == Sub(Noted(u, q, outcome), id, q, next)
  {
  }

  /** The `try` block is over as expected: the call waits to give its activity claim back, or is gone with it. */
  ghost predicate Leaves(u: World, w: World, id: nat, q: Responding, a: Answered, result: SubmissionResult, keep: bool, rest: seq<Answer>) {
    && result == a.result && keep == a.keep && rest == a.rest && a.world.calls == u.calls && a.world.sweep == u.sweep
    && w == if keep then a.world else Sub(a.world, id, q, Closing)
  }

  // ---------------------------------------------------------------- submit_response

  /** Reading the Thread; a state that cannot be read settles the interrupt as unknown. */
  method ReadThread(b: Stores, ghost u: World, ghost id: nat, q: Responding, state: Option<ThreadState>) returns (seen: Option<Seen>)
    requires b.Valid() && b.world == Sub(u, id, q, Claimed) && q.slot.Named() && q.slot in u.answers
    modifies b, b.answers
    ensures b.Valid() && seen == if state.Some? then Some(SeenOf(state.value)) else None
    ensures b.world == if seen.Some? then Sub(u, id, q, Read(seen.value)) else Sub(Noted(u, q, R.Unknown), id, q, Closing)
  {
    if state.None? {
      ReadStateIs(b.conns, b.world, id, q, None);
      b.RecordOutcomeStep(ReadState(id, None), q, R.Unknown);
      NotedAt(u, id, q, Claimed, R.Unknown, Closing);
      return None;
    }
    var pending := PendingIds(state.value.tasks);
    seen := Some(Seen(pending, RevisionOf(state.value)));
    ReadStateIs(b.conns, b.world, id, q, seen);
    b.Log(ReadState(id, seen));
    SubAgain(u, id, q, Claimed, Read(seen.value));
  }

  /** The boundary's decision, and the identity a resume needs. */
  method Decide(b: Stores, ghost u: World, ghost id: nat, q: Responding, seen: Seen, env: Environment) returns (prepared: Option<SubmitPc>)
    requires b.Valid() && b.world == Sub(u, id, q, Read(seen)) && q.slot.Named() && q.slot in u.answers
    modifies b, b.answers
    ensures b.Valid() && (prepared.Some? <==> Accepts(seen, q.slot.interrupt, q.revision, env.granted))
    ensures prepared.Some? ==> prepared.value == Prepared(seen, env.granted, Identity(u, q, env), DepthOf(u, KeyOf(q.slot)))
    ensures b.world == if prepared.Some? then Sub(u, id, q, prepared.value) else Sub(Noted(u, q, R.Rejected), id, q, Closing)
  {
    var accepted := AskBoundary(b, u, id, q, seen, env);
    if !accepted { return None; }
    var at := Prepare(b, u, id, q, seen, env);
    return Some(at);
  }

  method AskBoundary(b: Stores, ghost u: World, ghost id: nat, q: Responding, seen: Seen, env: Environment) returns (accepted: bool)
    requires b.Valid() && b.world == Sub(u, id, q, Read(seen)) && q.slot.Named() && q.slot in u.answers
    modifies b, b.answers
    ensures b.Valid() && accepted == Accepts(seen, q.slot.interrupt, q.revision, env.granted)
    ensures b.world == if accepted then Sub(u, id, q, Authorized(seen, env.granted, C.Pair(env.assistant, env.subject)))
                       else Sub(Noted(u, q, R.Rejected), id, q, Closing)
  {
    ghost var step := Authorize(id, env.granted, env.assistant, env.subject);
    AuthorizeIs(b.conns, b.world, id, q, seen, env.granted, C.Pair(env.assistant, env.subject));
    accepted := Accepts(seen, q.slot.interrupt, q.revision, env.granted);
    if accepted {
      b.Log(step);
      SubAgain(u, id, q, Read(seen), Authorized(seen, env.granted, C.Pair(env.assistant, env.subject)));
    } else {
      b.RecordOutcomeStep(step, q, R.Rejected);
      NotedAt(u, id, q, Read(seen), R.Rejected, Closing);
    }
  }

  method Prepare(b: Stores, ghost u: World, ghost id: nat, q: Responding, seen: Seen, env: Environment) returns (at: SubmitPc)
    requires b.Valid() && b.world == Sub(u, id, q, Authorized(seen, env.granted, C.Pair(env.assistant, env.subject))) && q.slot.Named()
    modifies b
    ensures b.Valid() && at == Prepared(seen, env.granted, Identity(u, q, env), DepthOf(u, KeyOf(q.slot)))
    ensures b.world == Sub(u, id, q, at)
  {
    ReadPendingIs(b.conns, b.world, id, q, seen, env.granted, C.Pair(env.assistant, env.subject));
    var entry := b.ReadPendingStep(id, q);
    var subject := if env.subject == "" && entry.Some? then entry.value.subject else env.subject;
    var depth := if entry.Some? then entry.value.cascadeDepth else 0;
    at := Prepared(seen, env.granted, C.Pair(env.assistant, subject), depth);
    SubAgain(u, id, q, Authorized(seen, env.granted, C.Pair(env.assistant, env.subject)), at);
  }

  lemma RecordedAt(u: World, id: nat, q: Responding, at: SubmitPc, run: string, next: SubmitPc)
    ensures Sub(Recorded(Sub(u, id, q, at), q, run), id, q, next) == Sub(Recorded(u, q, run), id, q, next)
  {
  }

  /** An accepted resume: its Run recorded under its Thread, and the interrupt settled. */
  method TakeResult(b: Stores, ghost u: World, ghost id: nat, q: Responding, pair: Pair, depth: nat, run: string, reply: ResumeOutcome)
    returns (at: SubmitPc)
    requires b.Valid() && b.world == Sub(u, id, q, Resuming(pair, depth)) && q.slot.Named() && !Blank(run) && q.slot in u.answers
    modifies b, b.answers, b.continuity
    ensures b.Valid() && b.world == Sub(Noted(Recorded(u, q, run), q, R.Resumed), id, q, at)
    ensures at == Settling(pair, depth, run, K.Recorded(u.threads, KeyOf(q.slot), run)[KeyOf(q.slot)].runId, reply)
  {
    ghost var returned := Returned(pair, depth, run, K.Recorded(u.threads, KeyOf(q.slot), run)[KeyOf(q.slot)].runId, reply);
    ResumeReturnsIs(b.conns, b.world, id, q, pair, depth, run, reply);
    var logicalRun := b.ResumeReturnsStep(id, q, run, reply);
    RecordedAt(u, id, q, Resuming(pair, depth), run, returned);
    RecordResumedIs(b.conns, b.world, id, q, returned);
    b.RecordOutcomeStep(RecordResumed(id), q, R.Resumed);
    at := Settling(pair, depth, run, logicalRun, reply);
    NotedAt(Recorded(u, q, run), id, q, returned, R.Resumed, at);
  }

  lemma SettledAt(u: World, id: nat, q: Responding, at: SubmitPc)
    requires at.Settling? && id !in u.calls
    ensures Sub(Settled(Sub(u, id, q, at), q, at), id, q, Closing) == Sub(Settled(u, q, at), id, q, Closing)
    ensures Settled(Sub(u, id, q, at), q, at).(calls := Sub(u, id, q, at).calls - {id}) == Settled(u, q, at)
  {
    SubGone(u, id, q, at);
  }

  /** How the resumed Run leaves its Thread; a success routes its finish before the call's own claim is dropped. */
  method SettleThread(b: Stores, ghost u: World, ghost id: nat, ghost child: nat, q: Responding, at: SubmitPc,
                      staleAfter: real, supply: seq<Answer>)
    returns (result: SubmissionResult, keep: bool, rest: seq<Answer>)
    requires b.Valid() && b.world == Sub(u, id, q, at) && at.Settling? && q.slot.Named() && id !in u.calls
    requires child !in u.calls && child != id && Fresh(u.seen, supply)
    modifies b, b.concurrency, b.lifecycle, b.signals, b.pending, b.continuity
    ensures b.Valid()
    ensures Leaves(u, b.world, id, q, SettledThread(b.conns, u, q, at, staleAfter, supply), result, keep, rest)
  {
    SettleIs(b.conns, b.world, id, q, at);
    b.SettleStep(id, q, at);
    SettledAt(u, id, q, at);
    result, keep, rest := ResumedRun, at.outcome.DeadlineReached? || at.outcome.TransportError?, supply;
    if at.outcome.ResumeSucceeded? && at.pair.Named() {
      var finish := FinishFor(q, at);
      ghost var settled := Settled(u, q, at);
      AllRoutedWith(b.conns, settled, settled.calls[id := Submit(q, Closing)], settled.sweep, Finished(finish), q.now, staleAfter, supply);
      FinishIsGiven(b.world, u, id, q, at);
      var response;
      response, rest := Router.RouteSignal(b, child, Finished(finish), |u.finished|, q.now, staleAfter, supply);
    }
  }

  lemma FinishIsGiven(w: World, u: World, id: nat, q: Responding, at: SubmitPc)
    requires at.Settling? && Reports(at) && w == Sub(Settled(u, q, at), id, q, Closing)
    ensures Router.Given(w, Finished(FinishFor(q, at)), |u.finished|)
  {
  }

  /** `resume`, which refuses a blank Assistant before anything is handed over. */
  method Send(b: Stores, ghost u: World, ghost id: nat, q: Responding, at: SubmitPc) returns (sent: bool)
    requires b.Valid() && at.Prepared? && b.world == Sub(u, id, q, at)
    modifies b
    ensures b.Valid() && sent == !Blank(at.pair.assistant)
    ensures b.world == if sent then Sub(Sent(u, q, at.seen, at.granted), id, q, Resuming(at.pair, at.depth)) else Sub(u, id, q, Closing)
  {
    ResumeIs(b.conns, b.world, id, q, at);
    b.Log(Resume(id));
    SentAt(u, id, q, at);
    SubAgain(u, id, q, at, Closing);
    sent := !Blank(at.pair.assistant);
  }

  lemma SentAt(u: World, id: nat, q: Responding, at: SubmitPc)
    requires at.Prepared?
    ensures
      Sub(Sub(u, id, q, at), id, q, Resuming(at.pair, at.depth)).(resumes := u.resumes + [Resumption(q.slot, q.revision, at.seen, at.granted)])
      == Sub(Sent(u, q, at.seen, at.granted), id, q, Resuming(at.pair, at.depth))
  {
  }

  /** The transport's answer is ambiguous: the interrupt settles as unknown and the call ends. */
  method LoseTrack(b: Stores, ghost v: World, ghost id: nat, q: Responding, pair: Pair, depth: nat)
    requires b.Valid() && b.world == Sub(v, id, q, Resuming(pair, depth)) && q.slot.Named() && q.slot in v.answers && id !in v.calls
    modifies b, b.answers
    ensures b.Valid() && b.world == Lost(v, q)
  {
    ResumeFailsIs(b.conns, b.world, id, q, pair, depth);
    b.RecordOutcomeStep(ResumeFails(id), q, R.Unknown);
    FailedAt(v, id, q, Resuming(pair, depth));
  }

  /** Sending leaves alone what the resumed Run is settled by. */
  lemma SentKeeps(u: World, q: Responding, env: Environment, at: SubmitPc)
    requires at.Prepared? && at == Prepared(at.seen, env.granted, Identity(u, q, env), DepthOf(u, KeyOf(q.slot)))
    ensures
      var v := Sent(u, q, at.seen, env.granted);
      && v.calls == u.calls && v.sweep == u.sweep && v.seen == u.seen && v.answers == u.answers
      && forall run, reply :: Resettling(v, q, env, run, reply)
                              == Settling(at.pair, at.depth, run, K.Recorded(v.threads, KeyOf(q.slot), run)[KeyOf(q.slot)].runId, reply)
  {
  }

  /** Handing the answer over; an ambiguous transport ends the call with its activity claim kept. */
  method HandOver(b: Stores, ghost u: World, ghost id: nat, ghost child: nat, q: Responding, env: Environment, at: SubmitPc,
                  staleAfter: real, supply: seq<Answer>)
    returns (result: SubmissionResult, keep: bool, rest: seq<Answer>)
    requires b.Valid() && b.world == Sub(u, id, q, at) && q.slot.Named() && q.slot in u.answers && id !in u.calls
    requires at.Prepared? && at == Prepared(at.seen, env.granted, Identity(u, q, env), DepthOf(u, KeyOf(q.slot))) && !Blank(env.assistant)
    requires child !in u.calls && child != id && Fresh(u.seen, supply) && (env.resumed.Answers? ==> !Blank(env.resumed.run))
    modifies b, b.concurrency, b.lifecycle, b.signals, b.answers, b.pending, b.continuity
    ensures b.Valid()
    ensures Leaves(u, b.world, id, q, HandedOver(b.conns, u, q, env, at.seen, staleAfter, supply), result, keep, rest)
  {
    ghost var v := Sent(u, q, at.seen, env.granted);
    SentKeeps(u, q, env, at);
    var sent := Send(b, u, id, q, at);
    if env.resumed.Ambiguous? {
      LoseTrack(b, v, id, q, at.pair, at.depth);
      return AmbiguousResume, true, supply;
    }
    result, keep, rest := TakeAndSettle(b, v, id, child, q, at.pair, at.depth, env.resumed.run, env.resumed.reply, staleAfter, supply);
  }

  method TakeAndSettle(b: Stores, ghost v: World, ghost id: nat, ghost child: nat, q: Responding, pair: Pair, depth: nat,
                       run: string, reply: ResumeOutcome, staleAfter: real, supply: seq<Answer>)
    returns (result: SubmissionResult, keep: bool, rest: seq<Answer>)
    requires b.Valid() && b.world == Sub(v, id, q, Resuming(pair, depth)) && q.slot.Named() && q.slot in v.answers && id !in v.calls && !Blank(run)
    requires child !in v.calls && child != id && Fresh(v.seen, supply)
    modifies b, b.concurrency, b.lifecycle, b.signals, b.answers, b.pending, b.continuity
    ensures b.Valid()
    ensures
      var at := Settling(pair, depth, run, K.Recorded(v.threads, KeyOf(q.slot), run)[KeyOf(q.slot)].runId, reply);
      Leaves(v, b.world, id, q, SettledThread(b.conns, Noted(Recorded(v, q, run), q, R.Resumed), q, at, staleAfter, supply), result, keep, rest)
  {
    var settling := TakeResult(b, v, id, q, pair, depth, run, reply);
    result, keep, rest := SettleThread(b, Noted(Recorded(v, q, run), q, R.Resumed), id, child, q, settling, staleAfter, supply);
  }

  lemma FailedAt(v: World, id: nat, q: Responding, at: SubmitPc)
    requires id !in v.calls
    ensures
      var w := Sub(v, id, q, at);
      Noted(w, q, R.Unknown).(calls := w.calls - {id}, replies := w.replies + [(q.slot, false)])
      == Lost(v, q)
  {
    SubGone(v, id, q, at);
  }

  /** The decision on what was read, and what follows from it. */
  method Judge(b: Stores, ghost u: World, ghost id: nat, ghost child: nat, q: Responding, env: Environment, seen: Seen,
               staleAfter: real, supply: seq<Answer>)
    returns (result: SubmissionResult, keep: bool, rest: seq<Answer>)
    requires b.Valid() && b.world == Sub(u, id, q, Read(seen)) && q.slot.Named() && q.slot in u.answers && id !in u.calls
    requires child !in u.calls && child != id && Fresh(u.seen, supply) && (env.resumed.Answers? ==> !Blank(env.resumed.run))
    modifies b, b.concurrency, b.lifecycle, b.signals, b.answers, b.pending, b.continuity
    ensures b.Valid()
    ensures Leaves(u, b.world, id, q, Judged(b.conns, u, q, env, seen, staleAfter, supply), result, keep, rest)
  {
    keep, rest := false, supply;
    var prepared := Decide(b, u, id, q, seen, env);
    if prepared.None? { return NotAccepted, keep, rest; }
    if Blank(env.assistant) {
      var sent := Send(b, u, id, q, prepared.value);
      return ResumeRejected, keep, rest;
    }
    result, keep, rest := HandOver(b, u, id, child, q, env, prepared.value, staleAfter, supply);
  }

  /** From the claimed interrupt to the end of the `try`. */
  method ReadAndJudge(b: Stores, ghost u: World, ghost id: nat, ghost child: nat, q: Responding, env: Environment, staleAfter: real, supply: seq<Answer>)
    returns (result: SubmissionResult, keep: bool, rest: seq<Answer>)
    requires b.Valid() && b.world == Sub(u, id, q, Claimed) && q.slot.Named() && q.slot in u.answers && id !in u.calls
    requires child !in u.calls && child != id && Fresh(u.seen, supply) && (env.resumed.Answers? ==> !Blank(env.resumed.run))
    modifies b, b.concurrency, b.lifecycle, b.signals, b.answers, b.pending, b.continuity
    ensures b.Valid()
    ensures Leaves(u, b.world, id, q, ReadAndJudged(b.conns, u, q, env, staleAfter, supply), result, keep, rest)
  {
    var seen := ReadThread(b, u, id, q, env.state);
    if seen.None? { return UnknownState, false, supply; }
    result, keep, rest := Judge(b, u, id, child, q, env, seen.value, staleAfter, supply);
  }

  /** The `try` block of a submission. */
  method AnswerOnce(b: Stores, ghost u: World, ghost id: nat, ghost child: nat, q: Responding, env: Environment, staleAfter: real, supply: seq<Answer>)
    returns (result: SubmissionResult, keep: bool, rest: seq<Answer>)
    requires b.Valid() && b.world == Sub(u, id, q, Opened) && q.slot.Named() && id !in u.calls
    requires child !in u.calls && child != id && Fresh(u.seen, supply) && (env.resumed.Answers? ==> !Blank(env.resumed.run))
    modifies b, b.concurrency, b.lifecycle, b.signals, b.answers, b.pending, b.continuity
    ensures b.Valid()
    ensures Leaves(u, b.world, id, q, AnsweredOnce(b.conns, u, q, env, staleAfter, supply), result, keep, rest)
  {
    ClaimAnswerIs(b.conns, b.world, id, q);
    var claimed := b.ClaimAnswerStep(id, q);
    ClaimedAt(u, id, q, if claimed then Claimed else Closing);
    if !claimed { return DuplicateAnswer, false, supply; }
    result, keep, rest := ReadAndJudge(b, u.(answers := R.Claimed(u.answers, q.slot, q.now)), id, child, q, env, staleAfter, supply);
  }

  lemma ClaimedAt(u: World, id: nat, q: Responding, next: SubmitPc)
    ensures Sub(Sub(u, id, q, Opened), id, q, next).(answers := R.Claimed(u.answers, q.slot, q.now))
            == Sub(u.(answers := R.Claimed(u.answers, q.slot, q.now)), id, q, next)
    ensures q.slot in u.answers ==> u.(answers := R.Claimed(u.answers, q.slot, q.now)) == u
  {
  }

  method Open(b: Stores, ghost id: nat, q: Responding, probe: L.Probe) returns (started: L.Started)
    requires b.Valid() && id !in b.world.calls && Registered(b.conns, q.slot.deployment) && q.slot.Named()
    modifies b, b.lifecycle
    ensures b.Valid() && started == Starting(b.conns, old(b.world), q, probe).1
    ensures
      var v := Starting(b.conns, old(b.world), q, probe).0;
      b.world == if started.FailedToStart? then v else Sub(v, id, q, Opened)
  {
    ghost var start := b.world;
    RespondIs(b.conns, start, id, q);
    b.Log(Respond(id, q.slot, q.revision, q.now));
    StartIs(b.conns, b.world, id, q, probe);
    started := b.StartStep(id, q.slot.deployment, q.now, probe);
    StartedAt(b.conns, start, id, q, probe);
  }

  lemma StartedAt(conns: Connections, w: World, id: nat, q: Responding, probe: L.Probe)
    requires id !in w.calls
    ensures
      var opening := Sub(w, id, q, Opening).(seen := w.seen + {KeyOf(q.slot)});
      var v := Starting(conns, w, q, probe).0;
      && opening.(calls := opening.calls - {id}).(records := v.records) == v
      && Sub(opening, id, q, Opened).(records := v.records) == Sub(v, id, q, Opened)
  {
    SubGone(w, id, q, Opening);
  }

  lemma ClosedAt(conns: Connections, v: World, id: nat, q: Responding)
    requires id !in v.calls
    ensures Closed(conns, Sub(v, id, q, Closing), q).(calls := Sub(v, id, q, Closing).calls - {id}) == Closed(conns, v, q)
  {
    SubGone(v, id, q, Closing);
  }

  /** One submission does to the stores what `Responded` says, and leaves no call behind. */
  method SubmitResponse(b: Stores, ghost id: nat, ghost child: nat, q: Responding, env: Environment, staleAfter: real, supply: seq<Answer>)
    returns (result: SubmissionResult, rest: seq<Answer>)
    requires b.Valid() && id !in b.world.calls && child !in b.world.calls && id != child
    requires Registered(b.conns, q.slot.deployment) && q.slot.Named() && (env.resumed.Answers? ==> !Blank(env.resumed.run))
    requires Fresh(b.world.seen + {KeyOf(q.slot)}, supply)
    modifies b, b.concurrency, b.lifecycle, b.signals, b.answers, b.pending, b.continuity
    ensures b.Valid() && Submitted(b.world, result, rest) == Responded(b.conns, old(b.world), q, env, staleAfter, supply)
  {
    ghost var start := b.world;
    ghost var v := Starting(b.conns, start, q, env.probe).0;
    var started := Open(b, id, q, env.probe);
    if started.FailedToStart? { return SubmissionResult.DeploymentUnavailable, supply; }
    var keep;
    result, keep, rest := AnswerOnce(b, v, id, child, q, env, staleAfter, supply);
    if !keep {
      ghost var a := AnsweredOnce(b.conns, v, q, env, staleAfter, supply).world;
      CloseIs(b.conns, b.world, id, q);
      b.ReleaseActiveStep(id, q.slot.deployment, q.now, false);
      ClosedAt(b.conns, a, id, q);
    }
  }
}

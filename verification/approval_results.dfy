/**
 What one submitted answer leaves in every store, told from the stores it found and the answers it got
 (src/cord_runtime/approval_inbox.py).
 */
module ApprovalResults {
  import opened Basics
  import opened Protocol
  import opened Routes
  import opened ApprovalInbox
  import ApprovalFacts
  import C = Concurrency
  import K = RunContinuity
  import L = DeploymentLifecycle
  import P = PendingCompletions
  import R = ResponseDedupe

  function Started(conns: Connections, w: World, q: Responding, probe: L.Probe): L.Records {
    L.EnsureStarted(w.records, q.slot.deployment, Conn(conns, q.slot.deployment), q.now, probe).0
  }

  function GivenBack(conns: Connections, records: L.Records, q: Responding): L.Records {
    L.ReleaseActive(records, q.slot.deployment, Conn(conns, q.slot.deployment), q.now)
  }

  function ClosedAs(q: Responding, outcome: R.Outcome): R.Record {
    R.Record(q.now, Some(outcome), Some(q.now))
  }

  // ---------------------------------------------------------------- without a resumed Run

  lemma StartingIs(conns: Connections, w: World, q: Responding, probe: L.Probe)
    ensures Starting(conns, w, q, probe).0 == w.(seen := w.seen + {P.Key(q.slot.deployment, q.slot.thread)}, records := Started(conns, w, q, probe))
  {
  }

  function Claims(v: World, q: Responding): World {
    v.(answers := R.Claimed(v.answers, q.slot, q.now))
  }

  function Closes(v: World, q: Responding, outcome: R.Outcome): World {
    v.(answers := v.answers[q.slot := ClosedAs(q, outcome)])
  }

  /** The record of an interrupt this call claimed, once its outcome is known. */
  lemma NotedOnce(v: World, q: Responding, outcome: R.Outcome)
    requires q.slot !in v.answers
    ensures Noted(Claims(v, q), q, outcome) == Closes(v, q, outcome)
  {
    assert v.answers[q.slot := R.Record(q.now, None, None)][q.slot := ClosedAs(q, outcome)] == v.answers[q.slot := ClosedAs(q, outcome)];
  }

  lemma LostIs(v: World, q: Responding, seen: Seen)
    requires q.slot !in v.answers
    ensures Lost(ApprovalInbox.Sent(Claims(v, q), q, seen, true), q)
            == Closes(v, q, R.Unknown).(replies := v.replies + [(q.slot, false)], resumes := v.resumes + [Resumption(q.slot, q.revision, seen, true)])
  {
    NotedOnce(v, q, R.Unknown);
  }

  /** The stores the `try` block of such an answer leaves. */
  function Tried(v: World, q: Responding, env: Environment, result: SubmissionResult): World {
    match result
    case UnknownState => Closes(v, q, R.Unknown)
    case NotAccepted => Closes(v, q, R.Rejected)
    case ResumeRejected => v.(answers := v.answers[q.slot := R.Record(q.now, None, None)])
    case AmbiguousResume =>
      if env.state.None? then v
      else Closes(v, q, R.Unknown).(replies := v.replies + [(q.slot, false)],
                                    resumes := v.resumes + [Resumption(q.slot, q.revision, SeenOf(env.state.value), true)])
    case _ => v
  }

  lemma AnsweredIs(conns: Connections, v: World, q: Responding, env: Environment, staleAfter: real, supply: seq<Answer>)
    requires !AnsweredOnce(conns, v, q, env, staleAfter, supply).result.ResumedRun?
    ensures
      var a := AnsweredOnce(conns, v, q, env, staleAfter, supply);
      && a.rest == supply && a.keep == a.result.AmbiguousResume? && !a.result.DeploymentUnavailable?
      && a.world == Tried(v, q, env, a.result)
  {
    if q.slot !in v.answers {
      if env.state.None? {
        NotedOnce(v, q, R.Unknown);
      } else {
        NotedOnce(v, q, R.Rejected);
        LostIs(v, q, SeenOf(env.state.value));
        JudgedIs(conns, v, q, env, SeenOf(env.state.value), staleAfter, supply);
      }
    }
  }

  lemma JudgedIs(conns: Connections, v: World, q: Responding, env: Environment, seen: Seen, staleAfter: real, supply: seq<Answer>)
    requires q.slot !in v.answers
    ensures
      var a := Judged(conns, Claims(v, q), q, env, seen, staleAfter, supply);
      if !Accepts(seen, q.slot.interrupt, q.revision, env.granted) then a == Answered(Noted(Claims(v, q), q, R.Rejected), NotAccepted, false, supply)
      else if Blank(env.assistant) then a == Answered(Claims(v, q), ResumeRejected, false, supply)
      else if env.resumed.Ambiguous? then a == Answered(Lost(ApprovalInbox.Sent(Claims(v, q), q, seen, true), q), AmbiguousResume, true, supply)
      else a.result.ResumedRun?
  {
  }

  /**
   An answer that resumes nothing moves the record of its own interrupt alone. The activity claim it
   took stays only behind an ambiguous transport, whose resume is on record.
   */
  lemma UnresumedLeaves(conns: Connections, w: World, q: Responding, env: Environment, staleAfter: real, supply: seq<Answer>)
    requires !Responded(conns, w, q, env, staleAfter, supply).result.ResumedRun?
    ensures
      var s := Responded(conns, w, q, env, staleAfter, supply);
      var v := w.(seen := w.seen + {P.Key(q.slot.deployment, q.slot.thread)}, records := Started(conns, w, q, env.probe));
      && s.rest == supply
      && s.world == if s.result.DeploymentUnavailable? || s.result.AmbiguousResume? then Tried(v, q, env, s.result)
                    else Tried(v, q, env, s.result).(records := GivenBack(conns, v.records, q))
  {
    StartingIs(conns, w, q, env.probe);
    var (v, started) := Starting(conns, w, q, env.probe);
    if !started.FailedToStart? {
      AnsweredIs(conns, v, q, env, staleAfter, supply);
    }
  }

  // ---------------------------------------------------------------- a resumed Run

  /** What the cascade needs of the Thread: depth and subject come from its stored entry, the assistant is the one read. */
  predicate Carries(w: World, q: Responding, env: Environment, pair: Pair, depth: nat) {
    var key := P.Key(q.slot.deployment, q.slot.thread);
    && pair.assistant == env.assistant
    && pair.subject == (if env.subject == "" && key in w.entries then w.entries[key].subject else env.subject)
    && depth == (if key in w.entries then w.entries[key].cascadeDepth else 0)
  }

  /** A Thread keeps its logical Run; one without a record is named by this invocation. */
  function LogicalRun(w: World, key: Key, run: string): string {
    if key in w.threads then w.threads[key].runId else run
  }

  predicate Recordable(key: Key, run: string, pair: Pair) {
    !Blank(key.deployment) && !Blank(key.thread) && !Blank(run) && !Blank(pair.assistant) && !Blank(pair.subject)
  }

  /** The Thread's entry, by how the Run ended. */
  function EntriesAfter(w: World, key: Key, run: string, pair: Pair, depth: nat, reply: ResumeOutcome, now: real): P.Entries {
    match reply
    case ResumeSucceeded => w.entries - {key}
    case ResumeInterrupted =>
      if Recordable(key, run, pair) then w.entries[key := P.Entry(run, pair.assistant, pair.subject, depth, false, false, now)] else w.entries
    case DeadlineReached =>
      if Recordable(key, run, pair) then w.entries[key := P.Entry(run, pair.assistant, pair.subject, depth, false, true, now)] else w.entries
    case _ => w.entries
  }

  predicate Reported(pair: Pair, reply: ResumeOutcome) {
    reply.ResumeSucceeded? && !Blank(pair.assistant) && !Blank(pair.subject)
  }

  /** The interrupt answered, and the resumed Run recorded against its Thread. */
  function Sealed(w: World, q: Responding, seen: Seen, run: string): World {
    w.(answers := w.answers[q.slot := ClosedAs(q, R.Resumed)], replies := w.replies + [(q.slot, true)],
       resumes := w.resumes + [Resumption(q.slot, q.revision, seen, true)],
       threads := K.Recorded(w.threads, P.Key(q.slot.deployment, q.slot.thread), run))
  }

  /** And its Thread's entry settled and its success reported, before any cascade and any release. */
  function Finished(w: World, q: Responding, seen: Seen, run: string, reply: ResumeOutcome, pair: Pair, depth: nat): World {
    var key := P.Key(q.slot.deployment, q.slot.thread);
    Sealed(w, q, seen, run).(
      entries := EntriesAfter(w, key, run, pair, depth, reply, q.now),
      finished := if Reported(pair, reply) then w.finished + [Finish(key, LogicalRun(w, key, run), pair, depth)] else w.finished)
  }

  /** What follows in the `try` block: a reported success is routed, and the activity claim is kept while the Run may still execute. */
  function Followed(conns: Connections, u: World, q: Responding, reply: ResumeOutcome, pair: Pair, staleAfter: real, supply: seq<Answer>): Answered {
    if Reported(pair, reply) && |u.finished| > 0 then
      var finish := Last(u.finished);
      var o := AllRouted(conns, u, Signal("run.finished:" + finish.runId, Some(finish)), q.now, staleAfter, supply);
      Answered(o.world, ResumedRun, false, o.rest)
    else Answered(u, ResumedRun, reply.DeadlineReached? || reply.TransportError?, supply)
  }

  lemma NotedIs(w: World, q: Responding, seen: Seen, run: string)
    requires q.slot in w.answers && w.answers[q.slot] == R.Record(q.now, None, None)
    ensures Noted(ApprovalInbox.Recorded(ApprovalInbox.Sent(w, q, seen, true), q, run), q, R.Resumed) == Sealed(w, q, seen, run)
  {
  }

  lemma EntriesAre(w: World, q: Responding, run: string, logicalRun: string, reply: ResumeOutcome, pair: Pair, depth: nat)
    ensures SettledEntries(w.entries, q, Settling(pair, depth, run, logicalRun, reply))
            == EntriesAfter(w, P.Key(q.slot.deployment, q.slot.thread), run, pair, depth, reply, q.now)
  {
  }

  lemma SettledIs(conns: Connections, w: World, q: Responding, seen: Seen, run: string, reply: ResumeOutcome, pair: Pair, depth: nat,
                  staleAfter: real, supply: seq<Answer>)
    ensures
      var at := Settling(pair, depth, run, LogicalRun(w, P.Key(q.slot.deployment, q.slot.thread), run), reply);
      SettledThread(conns, Sealed(w, q, seen, run), q, at, staleAfter, supply)
      == Followed(conns, Finished(w, q, seen, run, reply, pair, depth), q, reply, pair, staleAfter, supply)
  {
    var key := P.Key(q.slot.deployment, q.slot.thread);
    var at := Settling(pair, depth, run, LogicalRun(w, key, run), reply);
    EntriesAre(w, q, run, LogicalRun(w, key, run), reply, pair, depth);
    var u := Settled(Sealed(w, q, seen, run), q, at);
    assert u == Finished(w, q, seen, run, reply, pair, depth);
    if Reported(pair, reply) {
      assert Last(u.finished) == FinishFor(q, at);
    }
  }

  /** Handing the answer over, from a claimed interrupt. */
  lemma HandedOverIs(conns: Connections, w: World, q: Responding, env: Environment, seen: Seen, staleAfter: real, supply: seq<Answer>)
    returns (pair: Pair, depth: nat)
    requires env.resumed.Answers? && env.granted && q.slot in w.answers && w.answers[q.slot] == R.Record(q.now, None, None)
    ensures Carries(w, q, env, pair, depth)
    ensures HandedOver(conns, w, q, env, seen, staleAfter, supply)
            == Followed(conns, Finished(w, q, seen, env.resumed.run, env.resumed.reply, pair, depth), q, env.resumed.reply, pair, staleAfter, supply)
  {
    pair, depth := Identity(w, q, env), DepthOf(w, KeyOf(q.slot));
    NotedIs(w, q, seen, env.resumed.run);
    SettledIs(conns, w, q, seen, env.resumed.run, env.resumed.reply, pair, depth, staleAfter, supply);
  }

  /** The same from the stores before the interrupt was claimed. */
  lemma ClaimedFirst(w: World, q: Responding, seen: Seen, run: string, reply: ResumeOutcome, pair: Pair, depth: nat)
    requires q.slot !in w.answers
    ensures Finished(Claims(w, q), q, seen, run, reply, pair, depth) == Finished(w, q, seen, run, reply, pair, depth)
  {
    assert w.answers[q.slot := R.Record(q.now, None, None)][q.slot := ClosedAs(q, R.Resumed)] == w.answers[q.slot := ClosedAs(q, R.Resumed)];
  }

  /**
   A resumed Run: what it reports, or leaves tracked, has the depth and the subject of the Thread's
   stored entry (depth 0 and the subject read without one), the assistant read, and the Thread's one
   logical Run. Then a success is routed as its `run.finished` Signal.
   */
  lemma ResumedLeaves(conns: Connections, w: World, q: Responding, env: Environment, staleAfter: real, supply: seq<Answer>)
    returns (pair: Pair, depth: nat)
    requires Responded(conns, w, q, env, staleAfter, supply).result.ResumedRun?
    ensures env.resumed.Answers? && env.state.Some? && Carries(w, q, env, pair, depth)
    ensures
      var key := P.Key(q.slot.deployment, q.slot.thread);
      var v := w.(seen := w.seen + {key}, records := Started(conns, w, q, env.probe));
      var u := Finished(v, q, SeenOf(env.state.value), env.resumed.run, env.resumed.reply, pair, depth);
      var a := Followed(conns, u, q, env.resumed.reply, pair, staleAfter, supply);
      Responded(conns, w, q, env, staleAfter, supply)
      == Submitted(if a.keep then a.world else a.world.(records := GivenBack(conns, a.world.records, q)), ResumedRun, a.rest)
  {
    StartingIs(conns, w, q, env.probe);
    var v := Starting(conns, w, q, env.probe).0;
    var claimed := Claims(v, q);
    var seen := SeenOf(env.state.value);
    pair, depth := HandedOverIs(conns, claimed, q, env, seen, staleAfter, supply);
    ClaimedFirst(v, q, seen, env.resumed.run, env.resumed.reply, pair, depth);
    assert AnsweredOnce(conns, v, q, env, staleAfter, supply) == HandedOver(conns, claimed, q, env, seen, staleAfter, supply);
  }
}

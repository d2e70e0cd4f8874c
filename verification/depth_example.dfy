/** A run in which an answered Thread loses its cascade depth (src/cord_runtime/approval_inbox.py). */
module DepthExample {
  import opened Basics
  import opened Protocol
  import opened ProtocolDepth
  import opened Routes
  import Router
  import ApprovalInbox
  import Board
  import C = Concurrency
  import D = SignalDedupe
  import K = RunContinuity
  import L = DeploymentLifecycle
  import P = PendingCompletions
  import R = ResponseDedupe

  lemma Extend(conns: Connections, trace: seq<World>, steps: seq<Step>, step: Step) returns (t: seq<World>, s: seq<Step>)
    requires Run(conns, trace, steps) && Enabled(conns, Last(trace), step)
    ensures Run(conns, t, s) && Last(t) == Do(conns, Last(trace), step)
    ensures t == trace + [Last(t)] && s == steps + [step]
  {
    t, s := trace + [Do(conns, Last(trace), step)], steps + [step];
    Board.RunGrows(conns, trace, steps, step);
  }

  lemma Claims(conns: Connections, trace: seq<World>, steps: seq<Step>, open: Step, r: Routing) returns (t: seq<World>, s: seq<Step>)
    requires Run(conns, trace, steps) && Enabled(conns, Last(trace), open) && (open.RouteSignal? || open.Cascade?) && open.id == 0
    requires NewCall(Last(trace), open) == Route(r, Matched) && r.pair !in Last(trace).claims
    ensures Run(conns, t, s) && |s| == |steps| + 2
    ensures Last(t) == Router.At(Last(trace).(claims := Last(trace).claims[r.pair := r.now]), 0, r, HoldsPair)
  {
    var w := Last(trace);
    Router.OpenIs(conns, w, open);
    t, s := Extend(conns, trace, steps, open);
    Router.ClaimPairIs(conns, Last(t), 0, r);
    t, s := Extend(conns, t, s, ClaimPair(0));
    Router.ClaimedIs(w, 0, r);
  }

  lemma Starts(conns: Connections, trace: seq<World>, steps: seq<Step>, u: World, r: Routing) returns (t: seq<World>, s: seq<Step>)
    requires Run(conns, trace, steps) && Last(trace) == Router.At(u, 0, r, HoldsPair) && !Conn(conns, r.alias).Managed()
    ensures Run(conns, t, s) && |s| == |steps| + 1 && Last(t) == Router.At(u, 0, r, DeploymentReady)
  {
    var probe := L.Probe(false, Ok(0), false);
    Router.StartIs(conns, Last(trace), 0, r, probe);
    t, s := Extend(conns, trace, steps, Start(0, probe));
    Router.AtAgain(u, 0, r, HoldsPair, DeploymentReady);
  }

  lemma Admits(conns: Connections, trace: seq<World>, steps: seq<Step>, u: World, r: Routing) returns (t: seq<World>, s: seq<Step>)
    requires Run(conns, trace, steps) && Last(trace) == Router.At(u, 0, r, DeploymentReady) && r.signalId !in u.signals
    ensures Run(conns, t, s) && |s| == |steps| + 1 && Last(t) == Router.At(SignalClaimed(u, r), 0, r, RoutePc.Admitted(|u.claimCalls|))
  {
    Router.ClaimSignalIs(conns, Last(trace), 0, r);
    t, s := Extend(conns, trace, steps, ClaimSignal(0));
    Router.AtAgain(u, 0, r, DeploymentReady, RoutePc.Admitted(|u.claimCalls|));
    Router.SignalClaimedIs(u, 0, r, RoutePc.Admitted(|u.claimCalls|));
  }

  lemma Sends(conns: Connections, trace: seq<World>, steps: seq<Step>, u: World, r: Routing, claim: nat) returns (t: seq<World>, s: seq<Step>)
    requires Run(conns, trace, steps) && Last(trace) == Router.At(u, 0, r, RoutePc.Admitted(claim))
    ensures Run(conns, t, s) && |s| == |steps| + 1 && Last(t) == Router.At(Sent(u, r, claim), 0, r, Executing(claim))
  {
    Router.ExecuteIs(conns, Last(trace), 0, r, claim);
    t, s := Extend(conns, trace, steps, Execute(0));
    Router.AtAgain(u, 0, r, RoutePc.Admitted(claim), Executing(claim));
    Router.SentIs(u, 0, r, claim);
  }

  function Opened(u: World, key: Key, run: string): World {
    u.(seen := u.seen + {key}, threads := K.Recorded(u.threads, key, run))
  }

  lemma OpenedAt(u: World, r: Routing, pc: RoutePc, key: Key, run: string)
    ensures Opened(Router.At(u, 0, r, pc), key, run) == Router.At(Opened(u, key, run), 0, r, pc)
  {
  }

  lemma Returns(conns: Connections, trace: seq<World>, steps: seq<Step>, u: World, r: Routing, claim: nat, key: Key, run: string, outcome: ExecuteOutcome)
    returns (t: seq<World>, s: seq<Step>)
    requires Run(conns, trace, steps) && Last(trace) == Router.At(u, 0, r, Executing(claim))
    requires key.deployment == r.alias && !Blank(key.thread) && key !in u.seen && !Blank(run)
    ensures Run(conns, t, s) && |s| == |steps| + 1 && Last(t) == Router.At(Opened(u, key, run), 0, r, Executed(key, run, outcome))
    ensures t == trace + [Last(t)] && OpensThread(Last(trace), Last(s), key, Submission(r, claim))
  {
    Router.ExecuteReturnsIs(conns, Last(trace), 0, r, claim, key, run, outcome);
    t, s := Extend(conns, trace, steps, ExecuteReturns(0, key.thread, run, outcome));
    Router.AtAgain(u, 0, r, Executing(claim), Executed(key, run, outcome));
    OpenedAt(u, r, Executed(key, run, outcome), key, run);
  }

  /** A whole submission to an external Deployment, up to its result. */
  function Submitted(w: World, r: Routing, key: Key, run: string): World {
    Opened(Sent(SignalClaimed(w.(claims := w.claims[r.pair := r.now]), r), r, |w.claimCalls|), key, run)
  }

  lemma Executes(conns: Connections, trace: seq<World>, steps: seq<Step>, open: Step, r: Routing, key: Key, run: string, outcome: ExecuteOutcome)
    returns (t: seq<World>, s: seq<Step>)
    requires Run(conns, trace, steps) && Enabled(conns, Last(trace), open) && (open.RouteSignal? || open.Cascade?) && open.id == 0
    requires NewCall(Last(trace), open) == Route(r, Matched) && !Conn(conns, r.alias).Managed()
    requires r.pair !in Last(trace).claims && r.signalId !in Last(trace).signals
    requires key.deployment == r.alias && !Blank(key.thread) && key !in Last(trace).seen && !Blank(run)
    ensures Run(conns, t, s) && |s| == |steps| + 6 && Last(t) == Router.At(Submitted(Last(trace), r, key, run), 0, r, Executed(key, run, outcome))
    ensures OpensThread(t[|steps| + 5], Last(s), key, Submission(r, |Last(trace).claimCalls|))
  {
    var w := Last(trace);
    var u := w.(claims := w.claims[r.pair := r.now]);
    t, s := Claims(conns, trace, steps, open, r);
    t, s := Starts(conns, t, s, u, r);
    t, s := Admits(conns, t, s, u, r);
    t, s := Sends(conns, t, s, SignalClaimed(u, r), r, |w.claimCalls|);
    t, s := Returns(conns, t, s, Sent(SignalClaimed(u, r), r, |w.claimCalls|), r, |w.claimCalls|, key, run, outcome);
  }

  lemma Ends(conns: Connections, trace: seq<World>, steps: seq<Step>, u: World, r: Routing, key: Key, run: string)
    returns (t: seq<World>, s: seq<Step>)
    requires Run(conns, trace, steps) && Last(trace) == Router.At(u, 0, r, Executed(key, run, Succeeded)) && 0 !in u.calls
    requires !Conn(conns, r.alias).Managed()
    ensures Run(conns, t, s) && |s| == |steps| + 3
    ensures Last(t) == u.(claims := u.claims - {r.pair}, finished := u.finished + [Finish(key, run, r.pair, r.depth)])
  {
    var finish := Some(Finish(key, run, r.pair, r.depth));
    Router.TrackIs(conns, Last(trace), 0, r, key, run, Succeeded);
    t, s := Extend(conns, trace, steps, Track(0));
    Router.AtAgain(u, 0, r, Executed(key, run, Succeeded), Releasing(true, false, finish));
    t, s := LetsGo(conns, t, s, u, r, finish);
  }

  lemma LetsGo(conns: Connections, trace: seq<World>, steps: seq<Step>, u: World, r: Routing, finish: Option<Finish>)
    returns (t: seq<World>, s: seq<Step>)
    requires Run(conns, trace, steps) && Last(trace) == Router.At(u, 0, r, Releasing(true, false, finish)) && 0 !in u.calls
    requires !Conn(conns, r.alias).Managed() && finish.Some?
    ensures Run(conns, t, s) && |s| == |steps| + 2
    ensures Last(t) == u.(claims := u.claims - {r.pair}, finished := u.finished + [finish.value])
  {
    t, s := trace, steps;
    Router.ReleaseActiveIs(conns, Last(t), 0, r, true, false, finish);
    t, s := Extend(conns, t, s, ReleaseActive(0));
    Router.AtAgain(u, 0, r, Releasing(true, false, finish), LettingGo(false, finish));
    Router.ReleasePairIs(conns, Last(t), 0, r, false, finish);
    t, s := Extend(conns, t, s, ReleasePair(0));
    assert u.calls[0 := Route(r, LettingGo(false, finish))] - {0} == u.calls;
  }

  // ---------------------------------------------------------------- the answer

  ghost predicate Prefix<T>(t: seq<T>, s: seq<T>) {
    s <= t
  }

  lemma Responds(conns: Connections, trace: seq<World>, steps: seq<Step>, q: Responding) returns (t: seq<World>, s: seq<Step>)
    requires Run(conns, trace, steps) && 1 !in Last(trace).calls && Registered(conns, q.slot.deployment) && q.slot.Named()
    requires !Conn(conns, q.slot.deployment).Managed()
    ensures Run(conns, t, s) && |s| == |steps| + 2 && Prefix(t, trace) && Prefix(s, steps)
    ensures ApprovalInbox.Stands(Last(t), 1, q, SubmitPc.Opened) && Last(t).entries == Last(trace).entries && Last(t).answers == Last(trace).answers
  {
    var probe := L.Probe(false, Ok(0), false);
    ApprovalInbox.RespondIs(conns, Last(trace), 1, q);
    t, s := Extend(conns, trace, steps, Respond(1, q.slot, q.revision, q.now));
    ApprovalInbox.StartIs(conns, Last(t), 1, q, probe);
    t, s := Extend(conns, t, s, Start(1, probe));
  }

  lemma Reads(conns: Connections, trace: seq<World>, steps: seq<Step>, q: Responding, seen: Seen) returns (t: seq<World>, s: seq<Step>)
    requires Run(conns, trace, steps) && ApprovalInbox.Stands(Last(trace), 1, q, SubmitPc.Opened) && q.slot !in Last(trace).answers
    ensures Run(conns, t, s) && |s| == |steps| + 2 && Prefix(t, trace) && Prefix(s, steps)
    ensures ApprovalInbox.Stands(Last(t), 1, q, Read(seen)) && Last(t).entries == Last(trace).entries
  {
    ApprovalInbox.ClaimAnswerIs(conns, Last(trace), 1, q);
    t, s := Extend(conns, trace, steps, ClaimAnswer(1));
    ApprovalInbox.ReadStateIs(conns, Last(t), 1, q, Some(seen));
    t, s := Extend(conns, t, s, ReadState(1, Some(seen)));
  }

  lemma Answers(conns: Connections, trace: seq<World>, steps: seq<Step>, q: Responding, seen: Seen, pair: Pair)
    returns (t: seq<World>, s: seq<Step>)
    requires Run(conns, trace, steps) && 1 !in Last(trace).calls && Registered(conns, q.slot.deployment) && q.slot.Named()
    requires !Conn(conns, q.slot.deployment).Managed() && q.slot !in Last(trace).answers && Accepts(seen, q.slot.interrupt, q.revision, true)
    ensures Run(conns, t, s) && |s| == |steps| + 5
    ensures ApprovalInbox.Stands(Last(t), 1, q, Authorized(seen, true, pair)) && Last(t).entries == Last(trace).entries
    ensures Prefix(t, trace) && Prefix(s, steps)
  {
    t, s := Responds(conns, trace, steps, q);
    t, s := Reads(conns, t, s, q, seen);
    ApprovalInbox.AuthorizeIs(conns, Last(t), 1, q, seen, true, pair);
    t, s := Extend(conns, t, s, Authorize(1, true, pair.assistant, pair.subject));
  }


  // ---------------------------------------------------------------- one concrete run

  const EXTERNAL: Connections := map["d" := L.Connection(None, None)]
  const PARENT: Routing := Routing("s", None, None, "d", C.Pair("a", "x"), 0, 0.0, 180.0)
  const PARENT_THREAD: Key := P.Key("d", "t")
  const CHILD_THREAD: Key := P.Key("d", "u")
  const ANSWER: Responding := Responding(R.Slot("d", "u", "i"), None, 0.0)

  function Child(): Routing {
    Routing(FinishedId("p"), Some(PARENT_THREAD), Some("p"), "d", C.Pair("a", "y"), 1, 0.0, 180.0)
  }

  lemma ExampleNames()
    ensures PARENT.pair.Named() && Child().pair.Named() && !Blank("s") && !Blank("p") && !Blank("c") && Registered(EXTERNAL, "d")
    ensures PARENT_THREAD.Named() && CHILD_THREAD.Named() && ANSWER.slot.Named() && PARENT_THREAD != CHILD_THREAD
    ensures FinishedId("p") != "s"
  {
    assert "d"[0] == 'd' && "a"[0] == 'a' && "x"[0] == 'x' && "y"[0] == 'y' && "s"[0] == 's' && "t"[0] == 't' && "u"[0] == 'u' && "i"[0] == 'i';
    assert "p"[0] == 'p' && "c"[0] == 'c';
    assert |FinishedId("p")| > 1;
  }

  lemma ParentRuns() returns (t: seq<World>, s: seq<Step>)
    ensures Run(EXTERNAL, t, s) && Last(t).finished == [Finish(PARENT_THREAD, "p", PARENT.pair, 0)]
    ensures Last(t).calls == map[] && Last(t).claims == map[] && Last(t).answers == map[] && Last(t).entries == map[]
    ensures Last(t).signals.Keys == {"s"} && Last(t).seen == {PARENT_THREAD}
  {
    ExampleNames();
    t, s := Executes(EXTERNAL, [START], [], RouteSignal(0, "s", "d", PARENT.pair, 0.0, 180.0), PARENT, PARENT_THREAD, "p", Succeeded);
    t, s := Ends(EXTERNAL, t, s, Submitted(START, PARENT, PARENT_THREAD, "p"), PARENT, PARENT_THREAD, "p");
  }

  lemma ChildWaits() returns (t: seq<World>, s: seq<Step>, i: nat, submission: Submission)
    ensures Run(EXTERNAL, t, s) && |s| == i + 1 && OpensThread(t[i], s[i], CHILD_THREAD, submission) && submission.routing == Child()
    ensures 1 !in Last(t).calls && Last(t).answers == map[] && Last(t).entries == map[]
  {
    ExampleNames();
    t, s := ParentRuns();
    i, submission := |s| + 5, Submission(Child(), |Last(t).claimCalls|);
    t, s := Executes(EXTERNAL, t, s, Cascade(0, 0, "d", C.Pair("a", "y"), 0.0, 180.0), Child(), CHILD_THREAD, "c", Interrupted);
  }

  /**
   A Run started by another's completion pauses. An operator answers before the router has tracked the
   pause: the answer finds no entry, and the Thread opened at depth 1 goes on at depth 0.
   */
  lemma AnswerBeforeTheEntry() returns (trace: seq<World>, steps: seq<Step>, i: nat, submission: Submission)
    ensures Run(EXTERNAL, trace, steps) && i < |steps| - 1 && OpensThread(trace[i], steps[i], CHILD_THREAD, submission)
    ensures submission.routing.depth == 1 && Forgets(trace[|steps| - 1], steps[|steps| - 1], CHILD_THREAD, 1)
    ensures SubmitAt(Last(trace), 1) && Last(trace).calls[1].at.Prepared? && Last(trace).calls[1].at.depth == 0
  {
    ExampleNames();
    trace, steps, i, submission := ChildWaits();
    var seen, pair := Seen({"i"}, None), C.Pair("a", "y");
    trace, steps := Answers(EXTERNAL, trace, steps, ANSWER, seen, pair);
    ApprovalInbox.ReadPendingIs(EXTERNAL, Last(trace), 1, ANSWER, seen, true, pair);
    trace, steps := Extend(EXTERNAL, trace, steps, ReadPending(1));
  }
}

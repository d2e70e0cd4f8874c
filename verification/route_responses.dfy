/**
 Which response a routed Signal gets, what it submits and what it leaves, told from the Signal, the
 stores and the answer to it alone (src/cord_runtime/router.py).
 */
module RouteResponses {
  import opened Basics
  import opened Protocol
  import opened Routes
  import C = Concurrency
  import D = SignalDedupe
  import K = RunContinuity
  import L = DeploymentLifecycle
  import P = PendingCompletions

  // ---------------------------------------------------------------- the hurdles, in order

  /** Only a finish at the bound is stopped by depth. */
  predicate WithinDepth(signal: Signal) {
    signal.finish.None? || signal.finish.value.depth < 5
  }

  predicate Targeted(supply: seq<Answer>) {
    |supply| > 0 && supply[0].target.Some?
  }

  /** The mapped target: a registered connection and a pair without a blank name. */
  predicate Usable(conns: Connections, target: (string, Pair)) {
    target.0 in conns && !Blank(target.0) && !Blank(target.1.assistant) && !Blank(target.1.subject)
  }

  predicate Taken(w: World, pair: Pair, now: real, staleAfter: real) {
    pair in w.claims && now - w.claims[pair] < staleAfter
  }

  /** A managed Deployment that does not run and cannot be launched in health. */
  predicate CannotStart(conns: Connections, w: World, alias: string, probe: L.Probe) {
    && alias in conns && conns[alias].launch.Some? && conns[alias].launch.value != ""
    && !(alias in w.records && w.records[alias].status.Running? && probe.alive)
    && (probe.launched.Err? || !probe.healthy)
  }

  predicate Known(w: World, id: string, now: real) {
    id in w.signals && now - w.signals[id] < 86400.0
  }

  predicate Mappable(conns: Connections, signal: Signal, supply: seq<Answer>) {
    WithinDepth(signal) && Targeted(supply) && Usable(conns, supply[0].target.value)
  }

  predicate FindsFree(conns: Connections, w: World, signal: Signal, now: real, staleAfter: real, supply: seq<Answer>) {
    Mappable(conns, signal, supply) && !Taken(w, supply[0].target.value.1, now, staleAfter)
  }

  predicate FindsReady(conns: Connections, w: World, signal: Signal, now: real, staleAfter: real, supply: seq<Answer>) {
    FindsFree(conns, w, signal, now, staleAfter, supply) && !CannotStart(conns, w, supply[0].target.value.0, supply[0].probe)
  }

  /** The Signal passes every hurdle before `execute`. */
  predicate Passes(conns: Connections, w: World, signal: Signal, now: real, staleAfter: real, supply: seq<Answer>) {
    FindsReady(conns, w, signal, now, staleAfter, supply) && !Known(w, signal.id, now)
  }

  /** Each response is given exactly in its case. */
  lemma ResponseTells(conns: Connections, w: World, signal: Signal, now: real, staleAfter: real, supply: seq<Answer>)
    ensures
      var response := AllRouted(conns, w, signal, now, staleAfter, supply).response;
      var passes := Passes(conns, w, signal, now, staleAfter, supply);
      && (response.DepthExceeded? <==> !WithinDepth(signal))
      && (response.Unmatched? <==> WithinDepth(signal) && !Targeted(supply))
      && (response.InvalidMapping? <==> WithinDepth(signal) && Targeted(supply) && !Usable(conns, supply[0].target.value))
      && (response.ConcurrencySkipped? <==>
            Mappable(conns, signal, supply) && Taken(w, supply[0].target.value.1, now, staleAfter))
      && (response.DeploymentUnavailable? <==>
            FindsFree(conns, w, signal, now, staleAfter, supply) && CannotStart(conns, w, supply[0].target.value.0, supply[0].probe))
      && (response.Duplicate? <==> FindsReady(conns, w, signal, now, staleAfter, supply) && Known(w, signal.id, now))
      && (response.ExecutionFailed? <==> passes && supply[0].execution.Fails?)
      && (response.Routed? <==> passes && supply[0].execution.Returns?)
      && (response.Routed? ==> response.outcome == supply[0].execution.outcome)
  {
    if WithinDepth(signal) && |supply| > 0 {
      LevelTells(conns, w, signal, now, staleAfter, supply);
    }
  }

  /** The same of one level. */
  ghost predicate Tells(conns: Connections, w: World, signal: Signal, now: real, staleAfter: real, supply: seq<Answer>, response: Response)
    requires |supply| > 0
  {
    var target, passes := supply[0].target, Passes(conns, w, signal, now, staleAfter, supply);
    match response
    case Unmatched => target.None?
    case InvalidMapping => target.Some? && !Usable(conns, target.value)
    case ConcurrencySkipped => Mappable(conns, signal, supply) && Taken(w, target.value.1, now, staleAfter)
    case DeploymentUnavailable => FindsFree(conns, w, signal, now, staleAfter, supply) && CannotStart(conns, w, target.value.0, supply[0].probe)
    case Duplicate => FindsReady(conns, w, signal, now, staleAfter, supply) && Known(w, signal.id, now)
    case ExecutionFailed => passes && supply[0].execution.Fails?
    case Routed(outcome, _) => passes && supply[0].execution.Returns? && outcome == supply[0].execution.outcome
    case DepthExceeded => false
  }

  /** The response of a usable target, by the first hurdle it fails. */
  lemma HurdlesTell(conns: Connections, w: World, r: Routing, answer: Answer)
    requires r.alias in conns
    ensures
      Claiming(conns, w, r, answer).response ==
      if Taken(w, r.pair, r.now, r.staleAfter) then ConcurrencySkipped
      else if CannotStart(conns, w, r.alias, answer.probe) then DeploymentUnavailable
      else if Known(w, r.signalId, r.now) then Duplicate
      else if answer.execution.Fails? then ExecutionFailed
      else Routed(answer.execution.outcome, None)
  {
  }

  lemma LevelTells(conns: Connections, w: World, signal: Signal, now: real, staleAfter: real, supply: seq<Answer>)
    requires WithinDepth(signal) && |supply| > 0
    ensures Tells(conns, w, signal, now, staleAfter, supply, Levelled(conns, w, signal, now, staleAfter, supply[0]).response)
    ensures
      var l := Levelled(conns, w, signal, now, staleAfter, supply[0]);
      l.finish.Some? ==> l.response == Routed(Succeeded, None)
  {
    if supply[0].target.Some? && Usable(conns, supply[0].target.value) {
      HurdlesTell(conns, w, RoutingOf(signal, supply[0].target.value, now, staleAfter), supply[0]);
    }
  }

  // ---------------------------------------------------------------- what a routing carries

  /** The routing of a Signal: its own id, cause and depth, the mapped target, the time of the call. */
  predicate Carries(r: Routing, signal: Signal, target: (string, Pair), now: real, staleAfter: real) {
    && r.signalId == signal.id && r.alias == target.0 && r.pair == target.1 && r.now == now && r.staleAfter == staleAfter
    && match signal.finish
       case None => r.source.None? && r.causedBy.None? && r.depth == 0
       case Some(f) => r.source == Some(f.key) && r.causedBy == Some(f.runId) && r.depth == f.depth + 1
  }

  // ---------------------------------------------------------------- what a refused Signal leaves

  function Launched(conns: Connections, w: World, alias: string, now: real, probe: L.Probe): L.Records {
    L.EnsureStarted(w.records, alias, Conn(conns, alias), now, probe).0
  }

  function HandedBack(conns: Connections, w: World, alias: string, now: real, probe: L.Probe): L.Records {
    L.ReleaseActive(Launched(conns, w, alias, now, probe), alias, Conn(conns, alias), now)
  }

  /** Where a level stops once its pair is free, without submitting. */
  function Refused(conns: Connections, w: World, r: Routing, answer: Answer): World {
    var v := w.(claims := w.claims - {r.pair}, records := HandedBack(conns, w, r.alias, r.now, answer.probe));
    if CannotStart(conns, w, r.alias, answer.probe) then v
    else v.(signals := D.Prune(w.signals, r.now, 86400.0), claimCalls := w.claimCalls + [D.Call(r.signalId, r.now)])
  }

  lemma FailedLevel(conns: Connections, w: World, r: Routing, answer: Answer)
    requires r.alias in conns && !Taken(w, r.pair, r.now, r.staleAfter) && CannotStart(conns, w, r.alias, answer.probe)
    ensures Claiming(conns, w, r, answer) == Level(Refused(conns, w, r, answer), DeploymentUnavailable, None)
  {
    var claimed := w.(claims := w.claims[r.pair := r.now]);
    assert Attempted(conns, claimed, r, answer)
           == Tried(claimed.(records := Launched(conns, w, r.alias, r.now, answer.probe)), DeploymentUnavailable, false, false, None);
    assert w.claims[r.pair := r.now] - {r.pair} == w.claims - {r.pair};
  }

  lemma DuplicateLevel(conns: Connections, w: World, r: Routing, answer: Answer)
    requires r.alias in conns && !Taken(w, r.pair, r.now, r.staleAfter) && !CannotStart(conns, w, r.alias, answer.probe) && Known(w, r.signalId, r.now)
    ensures Claiming(conns, w, r, answer) == Level(Refused(conns, w, r, answer), Duplicate, None)
  {
    var claimed := w.(claims := w.claims[r.pair := r.now]);
    AttemptedIs(conns, claimed, r, answer);
    var v := claimed.(records := Launched(conns, w, r.alias, r.now, answer.probe));
    assert SignalClaimed(v, r) == v.(signals := D.Prune(w.signals, r.now, 86400.0), claimCalls := w.claimCalls + [D.Call(r.signalId, r.now)]);
    assert w.claims[r.pair := r.now] - {r.pair} == w.claims - {r.pair};
  }

  /**
   A Signal turned away submits nothing. Before its pair is found free nothing moves at all; after that
   the pair is given back, with the Deployment's claim if there was one, and a duplicate leaves the
   Signals remembered as they were, without what has expired.
   */
  lemma RefusedLeaves(conns: Connections, w: World, signal: Signal, now: real, staleAfter: real, supply: seq<Answer>) returns (r: Routing)
    requires !Passes(conns, w, signal, now, staleAfter, supply)
    ensures FindsFree(conns, w, signal, now, staleAfter, supply) ==> Carries(r, signal, supply[0].target.value, now, staleAfter)
    ensures
      var o := AllRouted(conns, w, signal, now, staleAfter, supply);
      && o.rest == (if WithinDepth(signal) && |supply| > 0 then supply[1..] else supply)
      && o.world == if FindsFree(conns, w, signal, now, staleAfter, supply) then Refused(conns, w, r, supply[0]) else w
  {
    r := Routing("", None, None, "", C.Pair("", ""), 0, now, staleAfter);
    if FindsFree(conns, w, signal, now, staleAfter, supply) {
      r := RoutingOf(signal, supply[0].target.value, now, staleAfter);
      if CannotStart(conns, w, r.alias, supply[0].probe) {
        FailedLevel(conns, w, r, supply[0]);
      } else {
        DuplicateLevel(conns, w, r, supply[0]);
      }
    } else if WithinDepth(signal) && |supply| > 0 {
      LevelTells(conns, w, signal, now, staleAfter, supply);
    }
  }

  // ---------------------------------------------------------------- what an accepted one submits

  /** A Run that waits is tracked under its identity, with both claims unless it was interrupted. */
  function Waits(w: World, r: Routing, key: Key, run: string, outcome: ExecuteOutcome): P.Entries {
    match outcome
    case StillRunning => w.entries[key := P.Entry(run, r.pair.assistant, r.pair.subject, r.depth, true, true, r.now)]
    case Interrupted => w.entries[key := P.Entry(run, r.pair.assistant, r.pair.subject, r.depth, false, false, r.now)]
    case _ => w.entries
  }

  predicate KeepsRunning(execution: Execution) {
    execution.Returns? && execution.outcome.StillRunning?
  }

  /** The Signal claimed, the Run submitted, and its result recorded against its Thread. */
  function SubmittedOnce(w: World, r: Routing, execution: Execution): World {
    var v := w.(signals := D.Prune(w.signals, r.now, 86400.0)[r.signalId := r.now], claimCalls := w.claimCalls + [D.Call(r.signalId, r.now)],
                submissions := w.submissions + [Submission(r, |w.claimCalls|)]);
    match execution
    case Fails => v
    case Returns(thread, run, outcome) =>
      v.(seen := w.seen + {P.Key(r.alias, thread)}, threads := K.Recorded(w.threads, P.Key(r.alias, thread), run),
         entries := Waits(w, r, P.Key(r.alias, thread), run, outcome))
  }

  /** The stores after one accepted submission, before any cascade: only a Run still running keeps pair and activity. */
  function Accepted(conns: Connections, w: World, r: Routing, answer: Answer): World {
    var running := KeepsRunning(answer.execution);
    SubmittedOnce(w, r, answer.execution).(
      claims := if running then w.claims[r.pair := r.now] else w.claims - {r.pair},
      records := if running then Launched(conns, w, r.alias, r.now, answer.probe) else HandedBack(conns, w, r.alias, r.now, answer.probe),
      finished := if answer.execution.Returns? && answer.execution.outcome.Succeeded?
                  then w.finished + [Finish(P.Key(r.alias, answer.execution.thread), answer.execution.run, r.pair, r.depth)] else w.finished)
  }

  lemma AdmittedIs(w: World, r: Routing, execution: Execution)
    requires !Known(w, r.signalId, r.now)
    ensures
      var t := Admitting(w, r, execution);
      t.took && t.retain == KeepsRunning(execution) && t.finish == Report(r, execution) && t.world == SubmittedOnce(w, r, execution)
  {
  }

  lemma AttemptedIs(conns: Connections, w: World, r: Routing, answer: Answer)
    requires r.alias in conns && !CannotStart(conns, w, r.alias, answer.probe)
    ensures Attempted(conns, w, r, answer) == Admitting(w.(records := Launched(conns, w, r.alias, r.now, answer.probe)), r, answer.execution)
  {
  }

  lemma SubmittedOn(w: World, claims: C.Claims, records: L.Records, r: Routing, execution: Execution)
    ensures SubmittedOnce(w.(claims := claims, records := records), r, execution) == SubmittedOnce(w, r, execution).(claims := claims, records := records)
    ensures SubmittedOnce(w, r, execution).finished == w.finished
  {
  }

  lemma CleanedUp(conns: Connections, w: World, r: Routing, answer: Answer, t: Tried)
    requires t.retain == KeepsRunning(answer.execution) && t.finish == Report(r, answer.execution)
    requires t.world == SubmittedOnce(w, r, answer.execution).(claims := w.claims[r.pair := r.now], records := Launched(conns, w, r.alias, r.now, answer.probe))
    requires t.world.finished == w.finished
    ensures Released(conns, r, t) == Accepted(conns, w, r, answer)
  {
    assert w.claims[r.pair := r.now] - {r.pair} == w.claims - {r.pair};
  }

  /** One level that passes every hurdle is that one submission. */
  lemma AcceptedIs(conns: Connections, w: World, r: Routing, answer: Answer)
    requires r.alias in conns && !Taken(w, r.pair, r.now, r.staleAfter) && !CannotStart(conns, w, r.alias, answer.probe) && !Known(w, r.signalId, r.now)
    ensures Claiming(conns, w, r, answer).world == Accepted(conns, w, r, answer)
    ensures Claiming(conns, w, r, answer).finish == Report(r, answer.execution)
  {
    var claimed := w.(claims := w.claims[r.pair := r.now]);
    AttemptedIs(conns, claimed, r, answer);
    var held := claimed.(records := Launched(conns, w, r.alias, r.now, answer.probe));
    AdmittedIs(held, r, answer.execution);
    SubmittedOn(w, held.claims, held.records, r, answer.execution);
    assert held == w.(claims := held.claims, records := held.records);
    CleanedUp(conns, w, r, answer, Attempted(conns, claimed, r, answer));
  }

  /** A usable target is routed as one level, and a success then cascades. */
  lemma OneLevel(conns: Connections, w: World, signal: Signal, now: real, staleAfter: real, supply: seq<Answer>)
    requires Mappable(conns, signal, supply)
    ensures
      var l := Claiming(conns, w, RoutingOf(signal, supply[0].target.value, now, staleAfter), supply[0]);
      AllRouted(conns, w, signal, now, staleAfter, supply) ==
      if l.finish.None? then Outcome(l.world, l.response, supply[1..])
      else
        var cascade := AllRouted(conns, l.world, Finished(l.finish.value), now, staleAfter, supply[1..]);
        Outcome(cascade.world, Routed(Succeeded, Some(cascade.response)), cascade.rest)
  {
  }

  /**
   A Signal that passes every hurdle makes exactly one submission of its own, first of all: it carries
   the Signal's id, cause and depth, the mapped target and the time of the call.
   */
  lemma OwnSubmission(conns: Connections, w: World, signal: Signal, now: real, staleAfter: real, supply: seq<Answer>) returns (r: Routing)
    requires Passes(conns, w, signal, now, staleAfter, supply)
    ensures Carries(r, signal, supply[0].target.value, now, staleAfter)
    ensures
      var o, u := AllRouted(conns, w, signal, now, staleAfter, supply), Accepted(conns, w, r, supply[0]);
      if supply[0].execution.Returns? && supply[0].execution.outcome.Succeeded? then
        var thread, run := supply[0].execution.thread, supply[0].execution.run;
        var finish := Finish(P.Key(r.alias, thread), run, r.pair, r.depth);
        var cascade := AllRouted(conns, u, Signal("run.finished:" + run, Some(finish)), now, staleAfter, supply[1..]);
        o == Outcome(cascade.world, Routed(Succeeded, Some(cascade.response)), cascade.rest)
      else if supply[0].execution.Returns? then o == Outcome(u, Routed(supply[0].execution.outcome, None), supply[1..])
      else o == Outcome(u, ExecutionFailed, supply[1..])
  {
    r := RoutingOf(signal, supply[0].target.value, now, staleAfter);
    AcceptedIs(conns, w, r, supply[0]);
    HurdlesTell(conns, w, r, supply[0]);
    OneLevel(conns, w, signal, now, staleAfter, supply);
  }
}

/**
 The context managers of src/cord_runtime/execution.py as they run: a span is opened with the
 declared outcome, its outcome is overwritten on the exception paths, and it is handed to the
 exporter when its block is left. `Exec` says what a whole program leaves behind.
 */
module Recorder {
  import opened Basics
  import opened Spans
  import opened Execution
  import RoundTrip

  lemma StepLeaves(item: Item, scope: Scope, clock: nat, before: map<string, Span>, inner: Effect)
    requires item.Step? && !Refused(item) && inner == Exec(item.body, StepScope(item, scope), clock + 1 + item.before)
    ensures
      var e := ExecOne(item, scope, clock);
      var span := StepSpan(item, scope, clock + 1 + item.before, inner.flow, inner.clock + 1 + item.after);
      && e.clock == inner.clock + 1 + item.after && e.flow == inner.flow
      && before + e.spans == (before + inner.spans)[item.id := span]
  {
  }

  lemma AttemptLeaves(item: Item, scope: Scope, clock: nat, before: map<string, Span>, inner: Effect)
    requires item.Attempt? && !Refused(item) && scope.kind == StepKind && inner == Exec(item.body, scope, clock + 1 + item.before)
    ensures
      var e := ExecOne(item, scope, clock);
      var span := AttemptSpan(item, scope, clock + 1 + item.before, inner.flow, inner.clock + 1 + item.after);
      && e.clock == inner.clock + 1 + item.after && e.flow == inner.flow
      && before + e.spans == (before + inner.spans)[item.id := span]
  {
  }

  lemma AllEmitted(p: Program)
    requires Accepted(p) && NoDup(ProgramIds(p))
    ensures Main(p).spans[p.id := RunSpan(p)] + Resumed(p, |p.resumptions|).spans == Emitted(p)
  {
    RoundTrip.EmittedParts(p);
    assert p.id !in RoundTrip.Whole(p).spans;
  }

  /** A span opened with the outcome its block declared. */
  function StepOpened(item: Item, scope: Scope, now: nat): Span
    requires item.Step?
  {
    Span(item.id, scope.traceId, Some(scope.spanId), StepName(item.node),
         StepScope(item, scope).own[OutcomeKey := Str(item.outcome.Text())], now, now, "")
  }

  function AttemptOpened(item: Item, scope: Scope, now: nat): Span
    requires item.Attempt?
  {
    Span(item.id, scope.traceId, Some(scope.spanId), AttemptName,
         OptionalText(scope.own[AttemptKey := Int(item.number)], TierKey, item.tier)[OutcomeKey := Str(item.attemptOutcome.Text())], now, now, "")
  }

  function WithOutcome(span: Span, outcome: string): Span {
    span.(attributes := span.attributes[OutcomeKey := Str(outcome)])
  }

  lemma StepSettles(item: Item, scope: Scope, start: nat, flow: Flow, end: nat)
    requires item.Step?
    ensures
      var pause := StepScope(item, scope).pause;
      var open := StepOpened(item, scope, start);
      StepSpan(item, scope, start, flow, end) ==
        (if flow.Normal? then open else WithOutcome(open, (if flow.exception in pause then AwaitingApproval else StepFailed).Text())).(end := end)
  {
  }

  lemma AttemptSettles(item: Item, scope: Scope, start: nat, flow: Flow, end: nat)
    requires item.Attempt?
    ensures
      var open := AttemptOpened(item, scope, start);
      AttemptSpan(item, scope, start, flow, end) ==
        (if flow.Normal? || flow.exception in scope.pause then open else WithOutcome(open, AttemptFailed.Text())).(end := end)
  {
  }

  lemma Appended(before: map<string, Span>, e: Effect, f: Effect)
    ensures before + e.spans + f.spans == before + Joined(e, f).spans
  {
  }

  class Tracer {
    var clock: nat
    var exported: map<string, Span>

    /** The state after `e`, starting from what had been exported before it. */
    predicate After(e: Effect, flow: Flow, before: map<string, Span>)
      reads this
    {
      clock == e.clock && flow == e.flow && exported == before + e.spans
    }

    constructor (now: nat)
      ensures clock == now && exported == map[]
    {
      clock, exported := now, map[];
    }

    method Tick(pause: nat)
      modifies this
      ensures clock == old(clock) + 1 + pause && exported == old(exported)
    {
      clock := clock + 1 + pause;
    }

    /** Close a span: nothing is exported before its block is left. */
    method End(span: Span)
      modifies this
      ensures exported == old(exported)[span.spanId := span.(end := clock)] && clock == old(clock)
    {
      exported := exported[span.spanId := span.(end := clock)];
    }

    method Perform(items: seq<Item>, scope: Scope) returns (flow: Flow)
      modifies this
      ensures After(Exec(items, scope, old(clock)), flow, old(exported))
      decreases items, 3
    {
      flow := Normal;
      if |items| > 0 {
        flow := PerformOne(items[0], scope);
        if flow.Normal? {
          flow := Perform(items[1..], scope);
        }
      }
    }

    method PerformOne(item: Item, scope: Scope) returns (flow: Flow)
      modifies this
      ensures After(ExecOne(item, scope, old(clock)), flow, old(exported))
      decreases item, 2
    {
      match item
      case Raise(e) =>
        flow := Raised(e);
      case Try(body) =>
        flow := Perform(body, scope);
        flow := Normal;
      case Step(_, _, _, _, _, _, _, _) =>
        flow := PerformStep(item, scope);
      case Attempt(_, _, _, _, _, _, _) =>
        flow := PerformAttempt(item, scope);
    }

    method PerformStep(item: Item, scope: Scope) returns (flow: Flow)
      requires item.Step?
      modifies this
      ensures After(ExecOne(item, scope, old(clock)), flow, old(exported))
      decreases item, 1
    {
      if Refused(item) { return Raised(VALUE_ERROR); }
      Tick(item.before);
      ghost var start := clock;
      var inner := StepScope(item, scope);
      var span := StepOpened(item, scope, clock);
      flow := Perform(item.body, inner);
      StepLeaves(item, scope, old(clock), old(exported), Exec(item.body, inner, start));
      StepSettles(item, scope, start, flow, clock + 1 + item.after);
      if flow.Raised? {
        span := WithOutcome(span, (if flow.exception in inner.pause then AwaitingApproval else StepFailed).Text());
      }
      Tick(item.after);
      End(span);
    }

    method PerformAttempt(item: Item, scope: Scope) returns (flow: Flow)
      requires item.Attempt?
      modifies this
      ensures After(ExecOne(item, scope, old(clock)), flow, old(exported))
      decreases item, 1
    {
      if scope.kind != StepKind { return Raised(ATTRIBUTE_ERROR); }
      if Refused(item) { return Raised(VALUE_ERROR); }
      Tick(item.before);
      ghost var start := clock;
      var span := AttemptOpened(item, scope, clock);
      flow := Perform(item.body, scope);
      AttemptLeaves(item, scope, old(clock), old(exported), Exec(item.body, scope, start));
      AttemptSettles(item, scope, start, flow, clock + 1 + item.after);
      if flow.Raised? && flow.exception !in scope.pause {
        span := WithOutcome(span, AttemptFailed.Text());
      }
      Tick(item.after);
      End(span);
    }

    /** `run`, its body, and every later `resume_run`. */
    method Record(p: Program)
      requires clock == p.openedAt && exported == map[] && NoDup(ProgramIds(p))
      modifies this
      ensures exported == Emitted(p)
    {
      if !Accepted(p) { return; }
      OpenRun(p);
      ResumeRun(p);
      AllEmitted(p);
    }

    method OpenRun(p: Program)
      requires clock == p.openedAt && exported == map[]
      modifies this
      ensures clock == Main(p).clock + 1 + p.after && exported == Main(p).spans[p.id := RunSpan(p)]
    {
      var span := Span(p.id, p.traceId, None, RunName, RunAttributes(p)[VersionKey := Str(SEMCONV_VERSION)], clock, clock, "");
      var flow := Perform(p.body, RunScope(p));
      Tick(p.after);
      End(span);
    }

    method ResumeRun(p: Program)
      requires clock == Main(p).clock + 1 + p.after
      modifies this
      ensures exported == old(exported) + Resumed(p, |p.resumptions|).spans
    {
      for i := 0 to |p.resumptions|
        invariant clock == Resumed(p, i).clock && exported == old(exported) + Resumed(p, i).spans
      {
        ResumeOnce(p, i + 1);
        Appended(old(exported), Resumed(p, i), Stretch(p, i + 1));
      }
    }

    method ResumeOnce(p: Program, n: nat)
      requires 0 < n <= |p.resumptions| && clock == Resumed(p, n - 1).clock
      modifies this
      ensures clock == Stretch(p, n).clock && exported == old(exported) + Stretch(p, n).spans
    {
      clock := clock + p.resumptions[n - 1].before;
      var flow := Perform(p.resumptions[n - 1].body, ResumedScope(p));
    }
  }
}

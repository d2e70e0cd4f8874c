/** What the callback handler guarantees over every event sequence. */
module CallbackFacts {
  import opened Basics
  import opened Spans
  import opened ArchiveQuery
  import opened CallbackHandler

  // ---------------------------------------------------------------- invariants

  /** No span id is drawn twice, and none is the Run's. */
  ghost predicate FreshDraws(config: Config, events: seq<Event>) {
    && (forall i | 0 <= i < |events| && events[i].Start? :: events[i].spanId != config.Root())
    && (forall i, j | 0 <= i < j < |events| && events[i].Start? && events[j].Start? :: events[i].spanId != events[j].spanId)
  }

  /** A Step span as the handler starts it. */
  predicate StartedStep(config: Config, s: Span) {
    && s.traceId == config.Trace() && s.parentId.Some? && s.name.StepName?
    && SameIdentifiers(s.attributes, config.Attributes())
    && Get(s.attributes, NodeKey) == Some(Str(s.name.rest))
    && Get(s.attributes, OutcomeKey) == Some(Str(PASSED))
    && AttemptKey !in s.attributes
  }

  predicate Hangs(config: Config, started: seq<Span>, i: nat)
    requires i < |started|
  {
    var up := started[i].parentId;
    up == Some(config.Root()) || exists j | 0 <= j < i :: up == Some(started[j].spanId)
  }

  /** Started Steps have ids of their own and hang under the Run or an earlier Step. */
  ghost predicate Started(config: Config, started: seq<Span>) {
    && (forall i | 0 <= i < |started| :: StartedStep(config, started[i]) && started[i].spanId != config.Root())
    && (forall i {:trigger Hangs(config, started, i)} | 0 <= i < |started| :: Hangs(config, started, i))
    && (forall i, j | 0 <= i < j < |started| :: started[i].spanId != started[j].spanId)
  }

  /** Both indexes hold started Steps; the run id index holds each once. */
  ghost predicate Indexed(h: Handler) {
    && (forall r | r in h.byRunId :: h.byRunId[r].span in h.started)
    && (forall n | n in h.byNamespace :: h.byNamespace[n].span in h.started && h.byNamespace[n].namespace == n)
    && (forall r, q | r in h.byRunId && q in h.byRunId && r != q :: h.byRunId[r].span.spanId != h.byRunId[q].span.spanId)
  }

  predicate Finishes(s: Span, t: Span) {
    || t == s.(end := t.end)
    || t == Settled(s, AWAITING, t.end)
    || t == Settled(s, FAILED, t.end)
  }

  /** A finished span is a started Step no longer open, or the Run at close. */
  ghost predicate Closes(h: Handler, e: Ended) {
    if e.runId.Some? then
      && (exists s | s in h.started :: Finishes(s, e.span))
      && (forall r | r in h.byRunId :: h.byRunId[r].span.spanId != e.span.spanId)
    else h.closed && h.config.NewRun? && h.run.Some? && e.span == h.run.value.(end := e.span.end)
  }

  /** No span is ended twice. */
  ghost predicate EndedOnce(h: Handler) {
    && (forall e {:trigger Closes(h, e)} | e in h.ended :: Closes(h, e))
    && (forall e | e in h.ended :: h.ended[e] == 1)
    && (forall e, f | e in h.ended && f in h.ended && e.span.spanId == f.span.spanId :: e == f)
  }

  ghost predicate RunSpanIs(h: Handler) {
    && (h.run.Some? <==> h.started != [])
    && (h.run.Some? ==> h.run.value == RunSpan(h.config, h.run.value.start))
    && (h.closed ==> h.byRunId == map[] && h.byNamespace == map[])
  }

  ghost predicate Inv(h: Handler) {
    Started(h.config, h.started) && Indexed(h) && EndedOnce(h) && RunSpanIs(h)
  }

  predicate FreshStart(h: Handler, e: Event) {
    e.Start? ==> e.spanId != h.config.Root() && forall s | s in h.started :: s.spanId != e.spanId
  }

  lemma StillHangs(config: Config, started: seq<Span>, s: Span, i: nat)
    requires i < |started| && Hangs(config, started, i)
    ensures Hangs(config, started + [s], i)
  {
    if started[i].parentId != Some(config.Root()) {
      var j :| 0 <= j < i && started[i].parentId == Some(started[j].spanId);
      assert (started + [s])[j] == started[j];
    }
  }

  lemma NewStepHangs(h: Handler, e: Event)
    requires Indexed(h) && Opens(h, e)
    ensures Hangs(h.config, h.started + [NewStep(h, e)], |h.started|)
  {
    var up := ParentStep(h, e.namespace.value);
    if up.Some? {
      assert up.value.span in h.started;
      var j :| 0 <= j < |h.started| && h.started[j] == up.value.span;
      assert (h.started + [NewStep(h, e)])[j] == h.started[j];
    }
  }

  lemma NewStepShape(h: Handler, e: Event)
    requires Opens(h, e)
    ensures StartedStep(h.config, NewStep(h, e)) && NewStep(h, e).spanId == e.spanId
  {
  }

  lemma NewStepIsStarted(h: Handler, e: Event)
    requires Inv(h) && Opens(h, e) && FreshStart(h, e)
    ensures Started(h.config, h.started + [NewStep(h, e)])
    ensures NewStep(h, e).spanId == e.spanId
  {
    var s := NewStep(h, e);
    var started := h.started + [s];
    NewStepShape(h, e);
    forall i | 0 <= i < |started|
      ensures Hangs(h.config, started, i)
    {
      if i < |h.started| {
        StillHangs(h.config, h.started, s, i);
      } else {
        NewStepHangs(h, e);
      }
    }
    assert forall i | 0 <= i < |h.started| :: h.started[i] in h.started;
  }

  lemma StartKeeps(h: Handler, e: Event)
    requires Inv(h) && Opens(h, e) && FreshStart(h, e)
    ensures Inv(Next(h, e))
  {
    NewStepIsStarted(h, e);
    StartIndexes(h, e);
    StartEnds(h, e);
  }

  lemma StartIndexes(h: Handler, e: Event)
    requires Inv(h) && Opens(h, e) && FreshStart(h, e)
    ensures Indexed(Next(h, e))
  {
    IndexedOneMore(h, OpenStep(NewStep(h, e), e.namespace.value), e.runId, Next(h, e));
  }

  lemma IndexedOneMore(h: Handler, step: OpenStep, runId: string, k: Handler)
    requires Indexed(h) && forall s | s in h.started :: s.spanId != step.span.spanId
    requires k.started == h.started + [step.span]
    requires k.byRunId == h.byRunId[runId := step] && k.byNamespace == h.byNamespace[step.namespace := step]
    ensures Indexed(k)
  {
    assert step.span in k.started && forall t | t in h.started :: t in k.started;
  }

  lemma StartEnds(h: Handler, e: Event)
    requires Inv(h) && Opens(h, e) && FreshStart(h, e)
    ensures EndedOnce(Next(h, e))
  {
    var k := Next(h, e);
    forall x | x in k.ended
      ensures Closes(k, x)
    {
      assert Closes(h, x);
      StartClosed(h, e, x);
    }
  }

  lemma StartClosed(h: Handler, e: Event, x: Ended)
    requires Opens(h, e) && FreshStart(h, e) && RunSpanIs(h) && Closes(h, x)
    ensures Closes(Next(h, e), x)
  {
    var k := Next(h, e);
    if x.runId.Some? {
      var t :| t in h.started && Finishes(t, x.span);
      assert k.started == h.started + [NewStep(h, e)] && t in k.started && t.spanId == x.span.spanId;
    }
  }

  lemma PopKeeps(h: Handler, runId: string, finished: Span)
    requires Inv(h) && runId in h.byRunId && Finishes(h.byRunId[runId].span, finished)
    ensures Inv(Popped(h, runId, finished))
  {
    PopIndexes(h, runId, finished);
    PopEnds(h, runId, finished);
  }

  lemma PopIndexes(h: Handler, runId: string, finished: Span)
    requires Indexed(h) && runId in h.byRunId
    ensures Indexed(Popped(h, runId, finished))
  {
  }

  lemma PopEnds(h: Handler, runId: string, finished: Span)
    requires Inv(h) && runId in h.byRunId && Finishes(h.byRunId[runId].span, finished)
    ensures EndedOnce(Popped(h, runId, finished))
  {
    var k := Popped(h, runId, finished);
    var one := Ended(Some(runId), finished);
    forall x | x in h.ended
      ensures x.span.spanId != finished.spanId
    {
      OpenNotEnded(h, runId, x);
    }
    assert one !in h.ended;
    forall x | x in k.ended
      ensures Closes(k, x)
    {
      PopCloses(h, runId, finished, x);
    }
  }

  lemma PopCloses(h: Handler, runId: string, finished: Span, x: Ended)
    requires Indexed(h) && EndedOnce(h) && runId in h.byRunId && Finishes(h.byRunId[runId].span, finished)
    requires x in h.ended || x == Ended(Some(runId), finished)
    ensures Closes(Popped(h, runId, finished), x)
  {
    if x in h.ended {
      assert Closes(h, x);
    }
  }

  lemma OpenNotEnded(h: Handler, runId: string, e: Ended)
    requires Inv(h) && runId in h.byRunId && e in h.ended
    ensures e.span.spanId != h.byRunId[runId].span.spanId
  {
    assert Closes(h, e);
    if e.runId.None? {
      var s := h.byRunId[runId].span;
      assert s in h.started && s.spanId != h.config.Root();
    }
  }

  lemma CloseKeeps(h: Handler, at: nat)
    requires Inv(h) && !h.closed
    ensures Inv(Next(h, Close(at)))
  {
    var k := Next(h, Close(at));
    var leaked := Leaked(h.byRunId, at);
    forall x | x in k.ended
      ensures x in h.ended || x in leaked || x in RunEnded(h, at)
      ensures Closes(k, x) && k.ended[x] == 1
    {
      CloseKeepsOne(h, at, x);
    }
    forall x, y | x in k.ended && y in k.ended && x.span.spanId == y.span.spanId
      ensures x == y
    {
      CloseDistinct(h, at, x, y);
    }
  }

  lemma LeakedNotEnded(h: Handler, at: nat, x: Ended, y: Ended)
    requires Inv(h) && x in Leaked(h.byRunId, at) && y in h.ended
    ensures x.span.spanId != y.span.spanId
  {
    var r :| r in h.byRunId && x == Ended(Some(r), Settled(h.byRunId[r].span, FAILED, at));
    OpenNotEnded(h, r, y);
  }

  lemma CloseKeepsOne(h: Handler, at: nat, x: Ended)
    requires Inv(h) && !h.closed && x in EndedAtClose(h, at)
    ensures Closes(Next(h, Close(at)), x) && EndedAtClose(h, at)[x] == 1
  {
    if x in h.ended {
      assert Closes(h, x);
      LeakedApart(h, at, x);
    }
  }

  lemma LeakedApart(h: Handler, at: nat, x: Ended)
    requires Inv(h) && x in h.ended
    ensures x !in Leaked(h.byRunId, at)
  {
    forall y | y in Leaked(h.byRunId, at)
      ensures y != x
    {
      LeakedNotEnded(h, at, y, x);
    }
  }

  lemma CloseDistinct(h: Handler, at: nat, x: Ended, y: Ended)
    requires Inv(h) && !h.closed && x in EndedAtClose(h, at) && y in EndedAtClose(h, at) && x.span.spanId == y.span.spanId
    ensures x == y
  {
    CloseSpanId(h, at, x);
    CloseSpanId(h, at, y);
    if x.runId.Some? && x !in h.ended && y in h.ended {
      LeakedNotEnded(h, at, x, y);
    } else if y.runId.Some? && y !in h.ended && x in h.ended {
      LeakedNotEnded(h, at, y, x);
    } else if x.runId.Some? && x !in h.ended {
      LeakedDistinct(h, at, x, y);
    }
  }

  lemma LeakedDistinct(h: Handler, at: nat, x: Ended, y: Ended)
    requires Inv(h) && x in Leaked(h.byRunId, at) && y in Leaked(h.byRunId, at) && x.span.spanId == y.span.spanId
    ensures x == y
  {
  }

  /** Only the Run's own span has the Run's id. */
  lemma CloseSpanId(h: Handler, at: nat, x: Ended)
    requires Inv(h) && !h.closed && x in EndedAtClose(h, at)
    ensures x.span.spanId == h.config.Root() <==> x.runId.None?
    ensures x.runId.None? ==> h.run.Some? && x == Ended(None, h.run.value.(end := at))
    ensures x.runId.Some? ==> x in h.ended || x in Leaked(h.byRunId, at)
  {
    if x in h.ended {
      assert Closes(h, x);
    } else if x in Leaked(h.byRunId, at) {
      var r :| r in h.byRunId && x == Ended(Some(r), Settled(h.byRunId[r].span, FAILED, at));
      assert h.byRunId[r].span in h.started;
    }
  }

  lemma NextKeeps(h: Handler, e: Event)
    requires Inv(h) && FreshStart(h, e)
    ensures Inv(Next(h, e)) && Next(h, e).config == h.config
  {
    match e
    case Start(_, _, _, _, _, _) =>
      if Opens(h, e) {
        StartKeeps(h, e);
      }
    case End(runId, at) =>
      if runId in h.byRunId {
        PopKeeps(h, runId, h.byRunId[runId].span.(end := at));
      }
    case Error(runId, interrupt, at) =>
      if runId in h.byRunId {
        var finished := Settled(h.byRunId[runId].span, if interrupt then AWAITING else FAILED, at);
        PopKeeps(h, runId, finished);
        AwaitingIrrelevant(Popped(h, runId, finished), Next(h, e).awaiting);
      }
    case Close(at) =>
      if !h.closed {
        CloseKeeps(h, at);
      }
  }

  lemma AwaitingIrrelevant(h: Handler, awaiting: seq<(string, string)>)
    requires Inv(h)
    ensures Inv(h.(awaiting := awaiting))
  {
    var k := h.(awaiting := awaiting);
    forall x | x in k.ended
      ensures Closes(k, x)
    {
      assert Closes(h, x);
    }
  }

  lemma DrawsOfPrefix(config: Config, events: seq<Event>)
    requires |events| > 0 && FreshDraws(config, events)
    ensures FreshDraws(config, events[..|events| - 1])
  {
  }

  ghost predicate DrawnBy(started: seq<Span>, events: seq<Event>) {
    forall s | s in started :: exists i | 0 <= i < |events| && events[i].Start? :: events[i].spanId == s.spanId
  }

  lemma {:induction false} RunKeeps(config: Config, resumedFrom: Option<string>, events: seq<Event>)
    requires FreshDraws(config, events)
    ensures
      var h := After(Initial(config, resumedFrom), events);
      Inv(h) && h.config == config && DrawnBy(h.started, events)
    ensures |events| > 0 ==> FreshStart(After(Initial(config, resumedFrom), events[..|events| - 1]), Last(events))
  {
    if |events| > 0 {
      var front, e := events[..|events| - 1], Last(events);
      DrawsOfPrefix(config, events);
      RunKeeps(config, resumedFrom, front);
      var h := After(Initial(config, resumedFrom), front);
      DrawnIsFresh(h, events);
      NextKeeps(h, e);
      DrawnOneMore(h, events);
    }
  }

  lemma DrawnIsFresh(h: Handler, events: seq<Event>)
    requires |events| > 0 && FreshDraws(h.config, events) && DrawnBy(h.started, events[..|events| - 1])
    ensures FreshStart(h, Last(events))
  {
    var front := events[..|events| - 1];
    forall s | s in h.started && Last(events).Start?
      ensures s.spanId != Last(events).spanId
    {
      var i :| 0 <= i < |front| && front[i].Start? && front[i].spanId == s.spanId;
      assert events[i] == front[i];
    }
  }

  lemma DrawnOneMore(h: Handler, events: seq<Event>)
    requires |events| > 0 && DrawnBy(h.started, events[..|events| - 1])
    ensures DrawnBy(Next(h, Last(events)).started, events)
  {
    var front, k := events[..|events| - 1], Next(h, Last(events));
    forall s | s in k.started
      ensures exists i | 0 <= i < |events| && events[i].Start? :: events[i].spanId == s.spanId
    {
      if s in h.started {
        var i :| 0 <= i < |front| && front[i].Start? && front[i].spanId == s.spanId;
        assert events[i] == front[i];
      } else {
        assert events[|events| - 1].spanId == s.spanId;
      }
    }
  }

  // ---------------------------------------------------------------- every started span is ended once

  ghost predicate IsOpen(h: Handler, id: string) {
    exists r | r in h.byRunId :: h.byRunId[r].span.spanId == id
  }

  ghost predicate IsEnded(h: Handler, id: string) {
    exists e | e in h.ended :: e.span.spanId == id
  }

  ghost predicate Accounted(h: Handler) {
    forall s {:trigger s in h.started} | s in h.started :: IsOpen(h, s.spanId) || IsEnded(h, s.spanId)
  }

  /** The Steps, each ended exactly once. */
  ghost predicate AllEnded(h: Handler) {
    forall s | s in h.started :: IsEnded(h, s.spanId)
  }

  /** A start event whose run id is still open: the earlier Step is forgotten. */
  predicate Reuses(h: Handler, e: Event) {
    Opens(h, e) && e.runId in h.byRunId
  }

  ghost predicate Lost(h: Handler, s: Span) {
    s in h.started && !IsOpen(h, s.spanId) && !IsEnded(h, s.spanId)
  }

  lemma NoReuseAccounts(h: Handler, e: Event)
    requires Inv(h) && FreshStart(h, e) && Accounted(h) && !Reuses(h, e)
    ensures Accounted(Next(h, e))
  {
    var k := Next(h, e);
    forall s | s in k.started
      ensures IsOpen(k, s.spanId) || IsEnded(k, s.spanId)
    {
      if s in h.started {
        StillAccounted(h, e, s.spanId);
      } else {
        assert k.byRunId[e.runId].span == s;
      }
    }
  }

  lemma StillAccounted(h: Handler, e: Event, id: string)
    requires !Reuses(h, e) && (IsOpen(h, id) || IsEnded(h, id))
    ensures IsOpen(Next(h, e), id) || IsEnded(Next(h, e), id)
  {
    var k := Next(h, e);
    if IsEnded(h, id) {
      var x :| x in h.ended && x.span.spanId == id;
      assert x in k.ended;
    } else {
      var r :| r in h.byRunId && h.byRunId[r].span.spanId == id;
      if r in k.byRunId {
        assert k.byRunId[r] == h.byRunId[r];
      } else {
        OpenLeaves(h, e, r);
      }
    }
  }

  /** A Step that leaves the index without being overwritten was ended. */
  lemma OpenLeaves(h: Handler, e: Event, r: string)
    requires r in h.byRunId && r !in Next(h, e).byRunId
    ensures IsEnded(Next(h, e), h.byRunId[r].span.spanId)
  {
    var k := Next(h, e);
    match e
    case Start(_, _, _, _, _, _) =>
    case End(runId, at) =>
      assert Ended(Some(r), h.byRunId[r].span.(end := at)) in k.ended;
    case Error(runId, interrupt, at) =>
      assert Ended(Some(r), Settled(h.byRunId[r].span, if interrupt then AWAITING else FAILED, at)) in k.ended;
    case Close(at) =>
      assert Ended(Some(r), Settled(h.byRunId[r].span, FAILED, at)) in Leaked(h.byRunId, at);
  }

  lemma ReuseLoses(h: Handler, e: Event)
    requires Inv(h) && FreshStart(h, e) && Reuses(h, e)
    ensures Lost(Next(h, e), h.byRunId[e.runId].span)
  {
    var k, s := Next(h, e), h.byRunId[e.runId].span;
    assert s in h.started && s in k.started;
    forall x | x in h.ended
      ensures x.span.spanId != s.spanId
    {
      OpenNotEnded(h, e.runId, x);
    }
  }

  lemma LostStays(h: Handler, e: Event, s: Span)
    requires Inv(h) && FreshStart(h, e) && Lost(h, s)
    ensures Lost(Next(h, e), s)
  {
    var k := Next(h, e);
    assert s in k.started && s.spanId != h.config.Root();
    forall x | x in k.ended
      ensures x.span.spanId != s.spanId
    {
      if x !in h.ended {
        NewlyEnded(h, e, x);
      }
    }
    forall r | r in k.byRunId
      ensures k.byRunId[r].span.spanId != s.spanId
    {
      NewlyOpen(h, e, r);
    }
  }

  lemma NewlyOpen(h: Handler, e: Event, r: string)
    requires r in Next(h, e).byRunId
    ensures (r in h.byRunId && Next(h, e).byRunId[r] == h.byRunId[r]) || (e.Start? && Next(h, e).byRunId[r].span.spanId == e.spanId)
  {
  }

  /** Only open Steps, and the Run at close, are ended. */
  lemma NewlyEnded(h: Handler, e: Event, x: Ended)
    requires RunSpanIs(h) && x in Next(h, e).ended && x !in h.ended
    ensures IsOpen(h, x.span.spanId) || x.span.spanId == h.config.Root()
  {
    match e
    case Start(_, _, _, _, _, _) =>
    case End(runId, at) =>
      assert runId in h.byRunId && h.byRunId[runId].span.spanId == x.span.spanId;
    case Error(runId, interrupt, at) =>
      assert runId in h.byRunId && h.byRunId[runId].span.spanId == x.span.spanId;
    case Close(at) =>
      if x in Leaked(h.byRunId, at) {
        var r :| r in h.byRunId && x == Ended(Some(r), Settled(h.byRunId[r].span, FAILED, at));
        assert h.byRunId[r].span.spanId == x.span.spanId;
      }
  }

  function StateAt(config: Config, resumedFrom: Option<string>, events: seq<Event>, i: nat): Handler
    requires i <= |events|
  {
    After(Initial(config, resumedFrom), events[..i])
  }

  lemma StateStep(config: Config, resumedFrom: Option<string>, events: seq<Event>, i: nat)
    requires i < |events| && FreshDraws(config, events)
    ensures Inv(StateAt(config, resumedFrom, events, i)) && Inv(StateAt(config, resumedFrom, events, i + 1))
    ensures StateAt(config, resumedFrom, events, i).config == config
    ensures FreshStart(StateAt(config, resumedFrom, events, i), events[i])
    ensures StateAt(config, resumedFrom, events, i + 1) == Next(StateAt(config, resumedFrom, events, i), events[i])
  {
    assert events[..i + 1][..i] == events[..i] && Last(events[..i + 1]) == events[i];
    RunKeeps(config, resumedFrom, events[..i + 1]);
    RunKeeps(config, resumedFrom, events[..i]);
  }

  ghost predicate LostAt(config: Config, resumedFrom: Option<string>, events: seq<Event>, i: nat, s: Span)
    requires i <= |events|
  {
    Lost(StateAt(config, resumedFrom, events, i), s)
  }

  lemma ReuseLosesAt(config: Config, resumedFrom: Option<string>, events: seq<Event>, i: nat) returns (s: Span)
    requires i < |events| && FreshDraws(config, events) && Reuses(StateAt(config, resumedFrom, events, i), events[i])
    ensures LostAt(config, resumedFrom, events, i + 1, s)
  {
    StateStep(config, resumedFrom, events, i);
    ReuseLoses(StateAt(config, resumedFrom, events, i), events[i]);
    s := StateAt(config, resumedFrom, events, i).byRunId[events[i].runId].span;
  }

  lemma LostStaysAt(config: Config, resumedFrom: Option<string>, events: seq<Event>, i: nat, s: Span)
    requires i < |events| && FreshDraws(config, events) && LostAt(config, resumedFrom, events, i, s)
    ensures LostAt(config, resumedFrom, events, i + 1, s)
  {
    StateStep(config, resumedFrom, events, i);
    LostStays(StateAt(config, resumedFrom, events, i), events[i], s);
  }

  lemma ReuseIsLost(config: Config, resumedFrom: Option<string>, events: seq<Event>, i: nat) returns (s: Span)
    requires i < |events| && FreshDraws(config, events) && Reuses(StateAt(config, resumedFrom, events, i), events[i])
    ensures LostAt(config, resumedFrom, events, |events|, s)
  {
    s := ReuseLosesAt(config, resumedFrom, events, i);
    LostUntil(config, resumedFrom, events, i + 1, |events|, s);
  }

  lemma {:induction false} LostUntil(config: Config, resumedFrom: Option<string>, events: seq<Event>, i: nat, n: nat, s: Span)
    requires i <= n <= |events| && FreshDraws(config, events) && LostAt(config, resumedFrom, events, i, s)
    ensures LostAt(config, resumedFrom, events, n, s)
    decreases n - i
  {
    if i < n {
      LostStaysAt(config, resumedFrom, events, i, s);
      LostUntil(config, resumedFrom, events, i + 1, n, s);
    }
  }

  lemma {:induction false} NoReuseRun(config: Config, resumedFrom: Option<string>, events: seq<Event>, n: nat)
    requires n <= |events| && FreshDraws(config, events)
    requires forall i | 0 <= i < n :: !Reuses(StateAt(config, resumedFrom, events, i), events[i])
    ensures Accounted(StateAt(config, resumedFrom, events, n))
  {
    if n > 0 {
      NoReuseRun(config, resumedFrom, events, n - 1);
      StateStep(config, resumedFrom, events, n - 1);
      NoReuseAccounts(StateAt(config, resumedFrom, events, n - 1), events[n - 1]);
    }
  }

  /**
   Once closed, every started Step has been ended, exactly once, precisely when no start event
   reused a run id that was still open.
   */
  lemma EveryStepEndedOnce(config: Config, resumedFrom: Option<string>, events: seq<Event>)
    requires FreshDraws(config, events)
    ensures
      var h := After(Initial(config, resumedFrom), events);
      && (h.closed ==> (AllEnded(h) <==> forall i | 0 <= i < |events| :: !Reuses(StateAt(config, resumedFrom, events, i), events[i])))
      && (forall e, f | e in h.ended && f in h.ended && e.span.spanId == f.span.spanId :: e == f && h.ended[e] == 1)
  {
    var h, n := After(Initial(config, resumedFrom), events), |events|;
    assert events[..n] == events;
    RunKeeps(config, resumedFrom, events);
    if h.closed {
      if forall i | 0 <= i < n :: !Reuses(StateAt(config, resumedFrom, events, i), events[i]) {
        NoReuseRun(config, resumedFrom, events, n);
      }
      if i :| 0 <= i < n && Reuses(StateAt(config, resumedFrom, events, i), events[i]) {
        var s := ReuseIsLost(config, resumedFrom, events, i);
      }
    }
  }

  // ---------------------------------------------------------------- the two indexes

  /** The namespace index holds exactly the open Steps. */
  ghost predicate Agree(h: Handler) {
    && (forall r | r in h.byRunId :: h.byRunId[r].namespace in h.byNamespace && h.byNamespace[h.byRunId[r].namespace] == h.byRunId[r])
    && (forall n | n in h.byNamespace :: exists r | r in h.byRunId :: h.byRunId[r] == h.byNamespace[n])
  }

  /** Neither key is in use, or the start replaces one open Step under both its keys. */
  predicate CleanStart(h: Handler, e: Event) {
    Opens(h, e) ==>
      if e.runId in h.byRunId then h.byRunId[e.runId].namespace == e.namespace.value else e.namespace.value !in h.byNamespace
  }

  lemma AgreeStep(h: Handler, e: Event)
    requires Inv(h) && Agree(h) && FreshStart(h, e)
    ensures Agree(Next(h, e)) <==> CleanStart(h, e)
  {
    match e
    case Start(_, _, _, _, _, _) =>
      if Opens(h, e) {
        if CleanStart(h, e) {
          CleanAgrees(h, e);
        } else if e.runId in h.byRunId {
          ReplacedStays(h, e);
        } else {
          SharedHides(h, e);
        }
      }
    case End(runId, _) =>
      if runId in h.byRunId {
        PopAgrees(h, runId, Next(h, e));
      }
    case Error(runId, _, _) =>
      if runId in h.byRunId {
        PopAgrees(h, runId, Next(h, e));
      }
    case Close(_) =>
  }

  lemma PopAgrees(h: Handler, runId: string, k: Handler)
    requires Indexed(h) && Agree(h) && runId in h.byRunId
    requires k.byRunId == h.byRunId - {runId} && k.byNamespace == h.byNamespace - {h.byRunId[runId].namespace}
    ensures Agree(k)
  {
    forall r | r in k.byRunId
      ensures k.byRunId[r].namespace in k.byNamespace
    {
      assert h.byRunId[r].span.spanId != h.byRunId[runId].span.spanId;
    }
    forall n | n in k.byNamespace
      ensures exists r | r in k.byRunId :: k.byRunId[r] == k.byNamespace[n]
    {
      var r :| r in h.byRunId && h.byRunId[r] == h.byNamespace[n];
      assert k.byRunId[r] == k.byNamespace[n];
    }
  }

  lemma CleanAgrees(h: Handler, e: Event)
    requires Indexed(h) && Agree(h) && Opens(h, e) && CleanStart(h, e)
    ensures Agree(Next(h, e))
  {
    var k, n := Next(h, e), e.namespace.value;
    assert k.byRunId[e.runId] == k.byNamespace[n] == OpenStep(NewStep(h, e), n);
    forall m | m in k.byNamespace
      ensures exists r | r in k.byRunId :: k.byRunId[r] == k.byNamespace[m]
    {
      if m == n {
        assert k.byRunId[e.runId] == k.byNamespace[n];
      } else {
        var r :| r in h.byRunId && h.byRunId[r] == h.byNamespace[m];
        assert k.byRunId[r] == k.byNamespace[m];
      }
    }
  }

  /** A namespace taken over hides the Step that held it. */
  lemma SharedHides(h: Handler, e: Event)
    requires Indexed(h) && Agree(h) && FreshStart(h, e) && Opens(h, e)
    requires e.runId !in h.byRunId && e.namespace.value in h.byNamespace
    ensures !Agree(Next(h, e))
  {
    var k, n := Next(h, e), e.namespace.value;
    var r :| r in h.byRunId && h.byRunId[r] == h.byNamespace[n];
    assert k.byRunId[r] == h.byRunId[r] && k.byRunId[r].span in h.started;
    assert k.byNamespace[n].span.spanId == e.spanId;
  }

  /** A run id reopened under another namespace leaves its old Step in the namespace index. */
  lemma ReplacedStays(h: Handler, e: Event)
    requires Inv(h) && Agree(h) && FreshStart(h, e) && Reuses(h, e) && h.byRunId[e.runId].namespace != e.namespace.value
    ensures !Agree(Next(h, e))
  {
    var k, replaced := Next(h, e), h.byRunId[e.runId];
    assert replaced.span in h.started;
    assert k.byNamespace[replaced.namespace] == replaced;
    forall r | r in k.byRunId
      ensures k.byRunId[r] != replaced
    {
      NewlyOpen(h, e, r);
    }
  }

  ghost predicate AgreesAt(config: Config, resumedFrom: Option<string>, events: seq<Event>, i: nat)
    requires i <= |events|
  {
    Agree(StateAt(config, resumedFrom, events, i))
  }

  predicate CleanAt(config: Config, resumedFrom: Option<string>, events: seq<Event>, i: nat)
    requires i < |events|
  {
    CleanStart(StateAt(config, resumedFrom, events, i), events[i])
  }

  /** The indexes agree throughout exactly when every opening Step is clean. */
  lemma IndexesAgree(config: Config, resumedFrom: Option<string>, events: seq<Event>)
    requires FreshDraws(config, events)
    ensures (forall i | 0 <= i <= |events| :: AgreesAt(config, resumedFrom, events, i))
            <==> (forall i | 0 <= i < |events| :: CleanAt(config, resumedFrom, events, i))
  {
    AgreesFirst(config, resumedFrom, events);
    forall i | 0 <= i < |events|
      ensures AgreesAt(config, resumedFrom, events, i) ==> (AgreesAt(config, resumedFrom, events, i + 1) <==> CleanAt(config, resumedFrom, events, i))
    {
      if AgreesAt(config, resumedFrom, events, i) {
        AgreeAt(config, resumedFrom, events, i);
      }
    }
    if forall i | 0 <= i < |events| :: CleanAt(config, resumedFrom, events, i) {
      for n := 0 to |events|
        invariant forall i | 0 <= i <= n :: AgreesAt(config, resumedFrom, events, i)
      {
        assert CleanAt(config, resumedFrom, events, n);
      }
    }
    if forall i | 0 <= i <= |events| :: AgreesAt(config, resumedFrom, events, i) {
      forall i | 0 <= i < |events|
        ensures CleanAt(config, resumedFrom, events, i)
      {
        assert AgreesAt(config, resumedFrom, events, i) && AgreesAt(config, resumedFrom, events, i + 1);
      }
    }
  }

  lemma AgreesFirst(config: Config, resumedFrom: Option<string>, events: seq<Event>)
    ensures AgreesAt(config, resumedFrom, events, 0)
  {
  }

  lemma AgreeAt(config: Config, resumedFrom: Option<string>, events: seq<Event>, i: nat)
    requires i < |events| && FreshDraws(config, events) && AgreesAt(config, resumedFrom, events, i)
    ensures AgreesAt(config, resumedFrom, events, i + 1) <==> CleanAt(config, resumedFrom, events, i)
  {
    StateStep(config, resumedFrom, events, i);
    AgreeStep(StateAt(config, resumedFrom, events, i), events[i]);
  }
}

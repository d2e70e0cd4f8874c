/** The spans of a closed callback handler against the archive contract. */
module CallbackArchive {
  import opened Basics
  import opened Spans
  import opened ArchiveQuery
  import opened CallbackHandler
  import opened CallbackFacts

  /** The Run span is recorded once its handler is closed. */
  ghost predicate RootRecorded(h: Handler) {
    h.closed && h.config.NewRun? && h.run.Some? ==> exists e | e in h.ended :: e.runId.None?
  }

  lemma RootRecordedStep(h: Handler, e: Event)
    requires Inv(h) && RootRecorded(h)
    ensures RootRecorded(Next(h, e))
  {
    if h.closed {
      assert Next(h, e) == h;
    } else if e.Close? && h.config.NewRun? && h.run.Some? {
      var end := Ended(None, h.run.value.(end := e.at));
      assert end in RunEnded(h, e.at) && end in Next(h, e).ended;
    }
  }

  lemma {:induction false} RootIsRecorded(config: Config, resumedFrom: Option<string>, events: seq<Event>)
    requires FreshDraws(config, events)
    ensures RootRecorded(After(Initial(config, resumedFrom), events))
  {
    if |events| > 0 {
      DrawsOfPrefix(config, events);
      RootIsRecorded(config, resumedFrom, events[..|events| - 1]);
      RunKeeps(config, resumedFrom, events[..|events| - 1]);
      RootRecordedStep(After(Initial(config, resumedFrom), events[..|events| - 1]), Last(events));
    }
  }

  /** The archive holds what was recorded before, and what this handler exported. */
  ghost predicate Archived(h: Handler, base: SpanMap, spans: SpanMap) {
    && Keyed(spans)
    && (forall x | x in base :: x in spans && spans[x] == base[x])
    && (forall e | e in h.ended :: e.span.spanId in spans && spans[e.span.spanId].span == e.span)
    && (forall x | x in spans :: x in base || IsEnded(h, x))
    && (forall s | s in h.started :: s.spanId !in base)
    && (h.config.NewRun? ==> h.config.Root() !in base)
  }

  /** A continuation names a recorded Run of the same trace and identity. */
  predicate Continues(config: Config, base: SpanMap) {
    config.Reopen? ==>
      && IsKind(base, config.Root(), RunKind)
      && base[config.Root()].span.traceId == config.Trace()
      && SameIdentifiers(base[config.Root()].span.attributes, config.Attributes())
  }

  ghost predicate Complete(h: Handler, base: SpanMap, spans: SpanMap) {
    && Inv(h) && h.closed && AllEnded(h) && RootRecorded(h)
    && Archived(h, base, spans) && Legal(base) && Continues(h.config, base)
  }

  /** A recorded Step of the handler. */
  ghost predicate RecordedStep(config: Config, t: Span) {
    && HasRole(t, StepKind) && t.name.StepName?
    && SameIdentifiers(t.attributes, config.Attributes()) && t.traceId == config.Trace()
    && Get(t.attributes, NodeKey) == Some(Str(t.name.rest))
    && OneOf(t.attributes, OutcomeKey, STEP_OUTCOMES)
  }

  lemma FinishedIsRecorded(config: Config, s: Span, t: Span)
    requires StartedStep(config, s) && Finishes(s, t)
    ensures RecordedStep(config, t) && t.spanId == s.spanId && t.parentId == s.parentId && t.name == s.name
  {
    assert STEP_OUTCOMES[0] == PASSED && STEP_OUTCOMES[2] == FAILED && STEP_OUTCOMES[3] == AWAITING;
    assert Get(t.attributes, NodeKey) == Get(s.attributes, NodeKey);
    assert SameIdentifiers(t.attributes, s.attributes);
  }

  lemma StepRecorded(h: Handler, base: SpanMap, spans: SpanMap, i: nat)
    requires Complete(h, base, spans) && i < |h.started|
    ensures
      var s := h.started[i];
      && s.spanId in spans && RecordedStep(h.config, spans[s.spanId].span)
      && spans[s.spanId].span.parentId == s.parentId && spans[s.spanId].span.name == s.name
  {
    var s := h.started[i];
    assert s in h.started && IsEnded(h, s.spanId);
    var e :| e in h.ended && e.span.spanId == s.spanId;
    EndOfStep(h, s, e);
    FinishedIsRecorded(h.config, s, e.span);
  }

  lemma EndOfStep(h: Handler, s: Span, e: Ended)
    requires Started(h.config, h.started) && EndedOnce(h) && RunSpanIs(h) && s in h.started && e in h.ended && e.span.spanId == s.spanId
    ensures Finishes(s, e.span)
  {
    assert Closes(h, e);
    if e.runId.Some? {
      var t :| t in h.started && Finishes(t, e.span);
      SameStarted(h.config, h.started, s, t);
    }
  }

  lemma SameStarted(config: Config, started: seq<Span>, s: Span, t: Span)
    requires Started(config, started) && s in started && t in started && s.spanId == t.spanId
    ensures s == t
  {
  }

  lemma RunRecorded(h: Handler, spans: SpanMap)
    requires EndedOnce(h) && RunSpanIs(h) && h.closed && RootRecorded(h) && h.config.NewRun? && h.run.Some?
    requires forall e | e in h.ended :: e.span.spanId in spans && spans[e.span.spanId].span == e.span
    ensures h.config.Root() in spans
    ensures spans[h.config.Root()].span == RunSpan(h.config, h.run.value.start).(end := spans[h.config.Root()].span.end)
  {
    var e :| e in h.ended && e.runId.None?;
    assert Closes(h, e);
  }

  /** The Run every Step leads to. */
  ghost predicate RootOf(config: Config, spans: SpanMap) {
    && IsKind(spans, config.Root(), RunKind)
    && spans[config.Root()].span.traceId == config.Trace()
    && SameIdentifiers(spans[config.Root()].span.attributes, config.Attributes())
    && (config.NewRun? ==> CurrentRoot(config, spans) && LegalRun(spans[config.Root()].span))
  }

  predicate CurrentRoot(config: Config, spans: SpanMap) {
    config.Root() in spans && Version(spans[config.Root()].span, SEMCONV_VERSION)
  }

  lemma RunSpanIsRoot(config: Config, spans: SpanMap, at: nat, end: nat)
    requires config.Root() in spans && spans[config.Root()].span == RunSpan(config, at).(end := end)
    ensures RootOf(config, spans)
  {
    assert SUPPORTED_RUN_VERSIONS[2] == SEMCONV_VERSION;
  }

  lemma RootInArchive(h: Handler, base: SpanMap, spans: SpanMap)
    requires Complete(h, base, spans) && h.started != []
    ensures RootOf(h.config, spans)
  {
    if h.config.NewRun? {
      RunRecorded(h, spans);
      RunSpanIsRoot(h.config, spans, h.run.value.start, spans[h.config.Root()].span.end);
    }
  }

  ghost predicate LeadsToRoot(spans: SpanMap, config: Config, id: string) {
    exists p :: Chain(spans, p) && p[0] == id && Last(p) == config.Root()
  }

  /** Every Step has a path to the Run the handler records. */
  lemma HangsUnder(h: Handler, i: nat) returns (j: nat)
    requires i < |h.started| && Hangs(h.config, h.started, i) && h.started[i].parentId != Some(h.config.Root())
    ensures j < i && h.started[i].parentId == Some(h.started[j].spanId)
  {
    j :| 0 <= j < i && h.started[i].parentId == Some(h.started[j].spanId);
  }

  lemma {:induction false} StepLeads(h: Handler, base: SpanMap, spans: SpanMap, i: nat)
    requires Complete(h, base, spans) && i < |h.started|
    ensures LeadsToRoot(spans, h.config, h.started[i].spanId)
    decreases i
  {
    var s := h.started[i];
    StepRecorded(h, base, spans, i);
    RootInArchive(h, base, spans);
    assert Hangs(h.config, h.started, i);
    if s.parentId == Some(h.config.Root()) {
      assert Chain(spans, [h.config.Root()]);
      LeadsFurther(spans, h.config, s.spanId, h.config.Root());
    } else {
      var j := HangsUnder(h, i);
      StepLeads(h, base, spans, j);
      LeadsFurther(spans, h.config, s.spanId, h.started[j].spanId);
    }
  }

  lemma LeadsFurther(spans: SpanMap, config: Config, id: string, up: string)
    requires LeadsToRoot(spans, config, up) && IsKind(spans, id, StepKind) && ParentOf(spans, id, up)
    ensures LeadsToRoot(spans, config, id)
  {
    var p :| Chain(spans, p) && p[0] == up && Last(p) == config.Root();
    ChainExtend(spans, id, p);
    assert Last([id] + p) == Last(p);
  }

  /** Steps under Steps need a Run of the current version. */
  predicate NestingAllowed(h: Handler, base: SpanMap)
    requires Continues(h.config, base)
  {
    h.config.NewRun? || CurrentRoot(h.config, base)
    || forall s | s in h.started :: s.parentId == Some(h.config.Root())
  }

  predicate IdentityNamed(config: Config) {
    !Blank(config.graph) && !Blank(config.RunText()) && !Blank(config.subject) && !Blank(config.subjectType)
  }

  /** The handler tests identities and Nodes only for emptiness; blank ones are refused later. */
  predicate Named(h: Handler) {
    && (h.started != [] && h.config.NewRun? ==> IdentityNamed(h.config))
    && (forall s | s in h.started :: s.name.StepName? ==> !Blank(s.name.rest))
  }

  lemma IdentifiedIff(config: Config, t: Span)
    requires SameIdentifiers(t.attributes, config.Attributes())
    ensures Identified(t) <==> IdentityNamed(config)
  {
    assert Get(t.attributes, GraphKey) == Some(Str(config.graph));
    assert Get(t.attributes, RunKey) == Some(Str(config.RunText()));
    assert Get(t.attributes, SubjectKey) == Some(Str(config.subject));
    assert Get(t.attributes, SubjectTypeKey) == Some(Str(config.subjectType));
  }

  lemma ReopenIsNamed(h: Handler, base: SpanMap)
    requires Legal(base) && Continues(h.config, base) && h.config.Reopen?
    ensures IdentityNamed(h.config)
  {
    assert LegalSpan(base, h.config.Root());
    IdentifiedIff(h.config, base[h.config.Root()].span);
  }

  lemma RootVersion(h: Handler, base: SpanMap, spans: SpanMap)
    requires Complete(h, base, spans) && h.started != []
    ensures CurrentRoot(h.config, spans) <==> h.config.NewRun? || CurrentRoot(h.config, base)
  {
    RootInArchive(h, base, spans);
  }

  /** A Step passes its own check exactly when it is named and may be nested where it is. */
  lemma StepLocal(h: Handler, base: SpanMap, spans: SpanMap, i: nat)
    requires Complete(h, base, spans) && i < |h.started|
    ensures
      var s := h.started[i];
      && s.spanId in spans && HasRole(spans[s.spanId].span, StepKind) && s.name.StepName?
      && (LocalSpan(spans, spans[s.spanId].span) <==>
            && IdentityNamed(h.config) && !Blank(s.name.rest)
            && (s.parentId == Some(h.config.Root()) || CurrentRoot(h.config, spans)))
  {
    var s := h.started[i];
    StepRecorded(h, base, spans, i);
    RootInArchive(h, base, spans);
    assert Hangs(h.config, h.started, i);
    if s.parentId == Some(h.config.Root()) {
      DirectLocal(h.config, spans, spans[s.spanId].span);
    } else {
      var j :| 0 <= j < i && s.parentId == Some(h.started[j].spanId);
      StepRecorded(h, base, spans, j);
      StepLeads(h, base, spans, j);
      NestedLocal(h.config, spans, spans[s.spanId].span, h.started[j].spanId);
    }
  }

  lemma DirectLocal(config: Config, spans: SpanMap, t: Span)
    requires RootOf(config, spans) && RecordedStep(config, t) && t.parentId == Some(config.Root())
    ensures LocalSpan(spans, t) <==> IdentityNamed(config) && !Blank(t.name.rest)
  {
    IdentifiedIff(config, t);
  }

  lemma NestedLocal(config: Config, spans: SpanMap, t: Span, up: string)
    requires RootOf(config, spans) && RecordedStep(config, t) && t.parentId == Some(up) && up in spans && RecordedStep(config, spans[up].span)
    requires LeadsToRoot(spans, config, up)
    ensures LocalSpan(spans, t) <==> IdentityNamed(config) && !Blank(t.name.rest) && CurrentRoot(config, spans)
  {
    IdentifiedIff(config, t);
    NestedVersion(spans, config, up);
  }

  lemma NestedVersion(spans: SpanMap, config: Config, id: string)
    requires config.Root() in spans && LeadsToRoot(spans, config, id)
    ensures (exists p :: Chain(spans, p) && p[0] == id && Version(spans[Last(p)].span, SEMCONV_VERSION))
            <==> CurrentRoot(config, spans)
  {
    var q :| Chain(spans, q) && q[0] == id && Last(q) == config.Root();
    forall p | Chain(spans, p) && p[0] == id
      ensures p == q
    {
      ChainUnique(spans, p, q);
    }
  }

  lemma RootLocal(h: Handler, base: SpanMap, spans: SpanMap)
    requires Complete(h, base, spans) && h.started != []
    ensures h.config.Root() in spans && (h.config.NewRun? ==> (LocalSpan(spans, spans[h.config.Root()].span) <==> IdentityNamed(h.config)))
  {
    RootInArchive(h, base, spans);
    IdentifiedIff(h.config, spans[h.config.Root()].span);
  }

  lemma ChainCarriesOver(base: SpanMap, spans: SpanMap, p: seq<string>)
    requires Chain(base, p) && forall x | x in base :: x in spans && spans[x] == base[x]
    ensures Chain(spans, p)
  {
  }

  /** Recording more spans leaves accepted ones accepted. */
  lemma BaseStaysLocal(base: SpanMap, spans: SpanMap, id: string)
    requires id in base && LocalSpan(base, base[id].span) && forall x | x in base :: x in spans && spans[x] == base[x]
    ensures LocalSpan(spans, spans[id].span)
  {
    var s := base[id].span;
    if IsKind(base, id, AttemptKind) {
      var p :| Chain(base, p) && p[0] == s.parentId.value && LegalTier(s, base[Last(p)].span);
      ChainCarriesOver(base, spans, p);
      assert spans[Last(p)] == base[Last(p)];
    } else if IsKind(base, id, StepKind) && IsKind(base, s.parentId.value, StepKind) {
      var p :| Chain(base, p) && p[0] == s.parentId.value && Version(base[Last(p)].span, SEMCONV_VERSION);
      ChainCarriesOver(base, spans, p);
      assert spans[Last(p)] == base[Last(p)];
    }
  }

  /** A recorded span is an earlier one, the Run, or a Step of this handler. */
  lemma WhereFrom(h: Handler, base: SpanMap, spans: SpanMap, x: string)
    requires Complete(h, base, spans) && x in spans && x !in base
    ensures (h.config.NewRun? && h.started != [] && x == h.config.Root()) || exists i | 0 <= i < |h.started| :: h.started[i].spanId == x
  {
    assert IsEnded(h, x);
    var e :| e in h.ended && e.span.spanId == x;
    EndedFrom(h, e);
  }

  lemma EndedFrom(h: Handler, e: Ended)
    requires EndedOnce(h) && RunSpanIs(h) && e in h.ended
    ensures (h.config.NewRun? && h.started != [] && e.span.spanId == h.config.Root())
            || exists i | 0 <= i < |h.started| :: h.started[i].spanId == e.span.spanId
  {
    assert Closes(h, e);
    if e.runId.Some? {
      var s :| s in h.started && Finishes(s, e.span);
      var i :| 0 <= i < |h.started| && h.started[i] == s;
      assert h.started[i].spanId == e.span.spanId;
    }
  }

  lemma NamedIsLocal(h: Handler, base: SpanMap, spans: SpanMap)
    requires Complete(h, base, spans) && Named(h) && NestingAllowed(h, base)
    ensures AllLocal(spans)
  {
    LocalIsLegal(base);
    forall x | x in spans
      ensures LocalSpan(spans, spans[x].span)
    {
      if x in base {
        assert LocalSpan(base, base[x].span);
        BaseStaysLocal(base, spans, x);
      } else {
        NewIsLocal(h, base, spans, x);
      }
    }
  }

  lemma NewIsLocal(h: Handler, base: SpanMap, spans: SpanMap, x: string)
    requires Complete(h, base, spans) && Named(h) && NestingAllowed(h, base) && x in spans && x !in base
    ensures LocalSpan(spans, spans[x].span)
  {
    WhereFrom(h, base, spans, x);
    if i :| 0 <= i < |h.started| && h.started[i].spanId == x {
      if h.config.Reopen? {
        ReopenIsNamed(h, base);
      }
      StepLocal(h, base, spans, i);
      RootVersion(h, base, spans);
      assert h.started[i] in h.started && StartedStep(h.config, h.started[i]);
    } else {
      RootLocal(h, base, spans);
    }
  }

  lemma StepIsNamed(h: Handler, base: SpanMap, spans: SpanMap, s: Span)
    requires Complete(h, base, spans) && AllLocal(spans) && s in h.started
    ensures IdentityNamed(h.config) && !Blank(s.name.rest)
    ensures s.parentId == Some(h.config.Root()) || CurrentRoot(h.config, spans)
  {
    var i :| 0 <= i < |h.started| && h.started[i] == s;
    StepLocal(h, base, spans, i);
    assert LocalSpan(spans, spans[s.spanId].span);
  }

  lemma LocalIsNamed(h: Handler, base: SpanMap, spans: SpanMap)
    requires Complete(h, base, spans) && AllLocal(spans)
    ensures Named(h) && NestingAllowed(h, base)
  {
    forall s | s in h.started
      ensures IdentityNamed(h.config) && !Blank(s.name.rest)
      ensures s.parentId == Some(h.config.Root()) || CurrentRoot(h.config, spans)
    {
      StepIsNamed(h, base, spans, s);
    }
    if h.started != [] {
      assert h.started[0] in h.started;
      RootVersion(h, base, spans);
    }
  }

  lemma CompleteIsLegal(h: Handler, base: SpanMap, spans: SpanMap)
    requires Complete(h, base, spans)
    ensures Legal(spans) <==> Named(h) && NestingAllowed(h, base)
  {
    LocalIsLegal(spans);
    if Legal(spans) {
      LocalIsNamed(h, base, spans);
    }
    if Named(h) && NestingAllowed(h, base) {
      NamedIsLocal(h, base, spans);
    }
  }

  /**
   Over every event sequence without a reused run id: what a closed handler exported, beside what
   was recorded before, is accepted exactly when it was named and nested only under a current Run.
   */
  lemma HandlerSpansAreLegal(config: Config, resumedFrom: Option<string>, events: seq<Event>, base: SpanMap, spans: SpanMap)
    requires FreshDraws(config, events) && Legal(base) && Continues(config, base)
    requires forall i | 0 <= i < |events| :: !Reuses(StateAt(config, resumedFrom, events, i), events[i])
    requires var h := After(Initial(config, resumedFrom), events); h.closed && Archived(h, base, spans)
    ensures
      var h := After(Initial(config, resumedFrom), events);
      h.config == config && (Legal(spans) <==> Named(h) && NestingAllowed(h, base))
  {
    var h := After(Initial(config, resumedFrom), events);
    RunKeeps(config, resumedFrom, events);
    EveryStepEndedOnce(config, resumedFrom, events);
    RootIsRecorded(config, resumedFrom, events);
    CompleteIsLegal(h, base, spans);
  }

  /** A handler records at most one Run root: its own, once, if any Step opened; none when it reopens a Run. */
  lemma OneRunRoot(config: Config, resumedFrom: Option<string>, events: seq<Event>)
    requires FreshDraws(config, events)
    ensures
      var h := After(Initial(config, resumedFrom), events);
      && (forall e | e in h.ended && HasRole(e.span, RunKind) :: config.NewRun? && e.span.spanId == config.Root() && h.ended[e] == 1)
      && (forall e, f | e in h.ended && f in h.ended && HasRole(e.span, RunKind) && HasRole(f.span, RunKind) :: e == f)
      && (h.closed && config.NewRun? ==> ((exists e | e in h.ended :: HasRole(e.span, RunKind)) <==> h.started != []))
  {
    var h := After(Initial(config, resumedFrom), events);
    RunKeeps(config, resumedFrom, events);
    RootIsRecorded(config, resumedFrom, events);
    forall e | e in h.ended
      ensures HasRole(e.span, RunKind) <==> e.runId.None?
      ensures e.runId.None? ==> config.NewRun? && h.run.Some? && e.span.spanId == config.Root()
    {
      EndedKind(h, e);
    }
  }

  lemma EndedKind(h: Handler, e: Ended)
    requires Inv(h) && e in h.ended
    ensures HasRole(e.span, RunKind) <==> e.runId.None?
    ensures e.runId.None? ==> h.config.NewRun? && h.run.Some? && e.span.spanId == h.config.Root()
  {
    assert Closes(h, e);
    if e.runId.Some? {
      var s :| s in h.started && Finishes(s, e.span);
      FinishedIsRecorded(h.config, s, e.span);
    }
  }
}

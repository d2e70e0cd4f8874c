/** Small spans the concrete archives are built of. */
module Samples {
  import opened Basics
  import opened Spans
  import opened ArchiveQuery

  const IDENTITY: Attributes := map[GraphKey := Str("g"), RunKey := Str("1"), SubjectKey := Str("u"), SubjectTypeKey := Str("t")]

  function SampleRun(start: nat, end: nat): Span {
    Span("r", "T", None, RunName, IDENTITY[VersionKey := Str(SEMCONV_VERSION)], start, end, "")
  }

  /** A Step of Node "n" directly under the Run. */
  function SampleStep(id: string, outcome: string, start: nat, end: nat): Span {
    Span(id, "T", Some("r"), StepName("n"), IDENTITY[NodeKey := Str("n")][OutcomeKey := Str(outcome)], start, end, "")
  }

  lemma Identifies(span: Span)
    requires forall k | k in IDENTITY :: k in span.attributes && span.attributes[k] == IDENTITY[k]
    ensures Identified(span)
  {
    assert !IsSpace("g"[0]) && !IsSpace("1"[0]) && !IsSpace("u"[0]) && !IsSpace("t"[0]);
    assert GraphKey in IDENTITY && RunKey in IDENTITY && SubjectKey in IDENTITY && SubjectTypeKey in IDENTITY;
  }

  lemma HasNode(span: Span)
    requires Get(span.attributes, NodeKey) == Some(Str("n"))
    ensures Nonblank(span.attributes, NodeKey)
  {
    assert !IsSpace("n"[0]);
  }

  lemma SampleRunIsLegal(spans: SpanMap, start: nat, end: nat)
    requires "r" in spans && spans["r"].span == SampleRun(start, end)
    ensures IsKind(spans, "r", RunKind) && LegalSpan(spans, "r")
  {
    Identifies(SampleRun(start, end));
    assert SUPPORTED_RUN_VERSIONS[2] == SEMCONV_VERSION;
  }

  /** A Step directly under the Run, whatever else it carries. */
  predicate UnderRun(span: Span, outcome: string) {
    && span.traceId == "T" && span.parentId == Some("r") && span.name == StepName("n") && AttemptKey !in span.attributes
    && Get(span.attributes, NodeKey) == Some(Str("n")) && Get(span.attributes, OutcomeKey) == Some(Str(outcome))
    && (forall k | k in IDENTITY :: k in span.attributes && span.attributes[k] == IDENTITY[k])
  }

  lemma SampleStepIsRooted(spans: SpanMap, id: string, outcome: string, start: nat, end: nat)
    requires id in spans && id != "r" && UnderRun(spans[id].span, outcome) && "r" in spans && spans["r"].span == SampleRun(start, end)
    ensures IsKind(spans, id, StepKind) && ParentOf(spans, id, "r") && RootedBy(spans, id, [id, "r"])
  {
    SampleRunIsLegal(spans, start, end);
    SharesIdentity(spans[id].span, spans["r"].span);
  }

  lemma SharesIdentity(a: Span, b: Span)
    requires a.traceId == b.traceId
    requires forall k | k in IDENTITY :: k in a.attributes && a.attributes[k] == IDENTITY[k]
    requires forall k | k in IDENTITY :: k in b.attributes && b.attributes[k] == IDENTITY[k]
    ensures SameIdentity(a, b)
  {
    assert GraphKey in IDENTITY && RunKey in IDENTITY && SubjectKey in IDENTITY && SubjectTypeKey in IDENTITY;
  }

  lemma SampleStepIsLegal(spans: SpanMap, id: string, outcome: string, start: nat, end: nat)
    requires id in spans && id != "r" && UnderRun(spans[id].span, outcome) && "r" in spans && spans["r"].span == SampleRun(start, end)
    requires outcome in STEP_OUTCOMES
    ensures LegalSpan(spans, id)
  {
    Identifies(spans[id].span);
    HasNode(spans[id].span);
    SampleStepIsRooted(spans, id, outcome, start, end);
    assert |[id, "r"]| == 2;
  }

  /** An Attempt of such a Step. */
  predicate UnderStep(span: Span, step: string, outcome: string) {
    && span.traceId == "T" && span.parentId == Some(step) && span.name == AttemptName
    && Get(span.attributes, NodeKey) == Some(Str("n")) && Get(span.attributes, OutcomeKey) == Some(Str(outcome))
    && Get(span.attributes, AttemptKey) == Some(Int(1)) && TierKey !in span.attributes
    && (forall k | k in IDENTITY :: k in span.attributes && span.attributes[k] == IDENTITY[k])
  }

  lemma NoTierNeeded(span: Span, start: nat, end: nat)
    requires TierKey !in span.attributes
    ensures LegalTier(span, SampleRun(start, end))
  {
    assert "0.2.0"[2] != SEMCONV_VERSION[2];
  }

  lemma SampleAttemptIsLegal(spans: SpanMap, id: string, step: string, outcome: string, start: nat, end: nat)
    requires id in spans && step in spans && step != "r" && "r" in spans && spans["r"].span == SampleRun(start, end)
    requires UnderStep(spans[id].span, step, outcome) && UnderRun(spans[step].span, "passed") && outcome in ATTEMPT_OUTCOMES
    ensures LegalSpan(spans, id)
  {
    Identifies(spans[id].span);
    HasNode(spans[id].span);
    SampleStepIsRooted(spans, step, "passed", start, end);
    SharesIdentity(spans[id].span, spans[step].span);
    NoTierNeeded(spans[id].span, start, end);
    assert Last([step, "r"]) == "r";
  }
}

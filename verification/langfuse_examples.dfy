/** Two archives whose copies agree in Python's equality and are still refused (src/cord_runtime/langfuse_query.py:168-177). */
module LangfuseExamples {
  import opened Basics
  import opened Spans
  import opened ArchiveQuery
  import opened Projection
  import opened LangfuseQuery
  import opened Samples

  const RUN: Span := SampleRun(1, 9)

  const STEP: Span := SampleStep("s", "passed", 2, 8)

  const ATTEMPT: Span :=
    Span("a", "T", Some("s"), AttemptName, IDENTITY[NodeKey := Str("n")][OutcomeKey := Str("passed")][AttemptKey := Int(1)], 3, 7, "")

  /** An ordinary span without a name. */
  const UNNAMED: Span := Span("o", "T", Some("r"), NoName, map[], 4, 5, "")

  const TRUTHFUL: Span := ATTEMPT.(attributes := ATTEMPT.attributes[AttemptKey := Bool(true)])

  const NULLED: Span := UNNAMED.(name := NotText(Raw("null")))

  const ARCHIVE: SpanMap := map["r" := Entry(RUN, ""), "s" := Entry(STEP, ""), "a" := Entry(ATTEMPT, ""), "o" := Entry(UNNAMED, "")]

  /** A reader's copy of it, with two of its spans as given. */
  function CopyOf(attempt: Span, unnamed: Span): map<string, Span> {
    map["r" := RUN, "s" := STEP, "a" := attempt, "o" := unnamed]
  }

  function CopiesOf(attempt: Span, unnamed: Span): Copies {
    map["T" := TraceCopy(CopyOf(attempt, unnamed), "u")]
  }

  lemma Roles()
    ensures HasRole(RUN, RunKind) && HasRole(STEP, StepKind) && HasRole(ATTEMPT, AttemptKind) && Role(UNNAMED) == Ok(None)
    ensures SameIdentity(STEP, RUN) && SameIdentity(STEP, STEP) && SameIdentity(ATTEMPT, STEP)
  {
  }

  lemma StepHangs()
    ensures "s" != "r" && UnderRun(STEP, "passed") && "passed" in STEP_OUTCOMES && "passed" in ATTEMPT_OUTCOMES
  {
    assert "s"[0] != "r"[0] && STEP_OUTCOMES[0] == "passed" && ATTEMPT_OUTCOMES[0] == "passed";
  }

  lemma AttemptHangs()
    ensures UnderStep(ATTEMPT, "s", "passed")
  {
  }

  lemma ArchiveIsLegal()
    ensures Legal(ARCHIVE)
  {
    StepHangs();
    AttemptHangs();
    SampleRunIsLegal(ARCHIVE, 1, 9);
    SampleStepIsLegal(ARCHIVE, "s", "passed", 1, 9);
    SampleAttemptIsLegal(ARCHIVE, "a", "s", "passed", 1, 9);
    UnnamedIsLegal();
    forall id | id in ARCHIVE
      ensures LegalSpan(ARCHIVE, id)
    {
      FourSpans(id);
    }
  }

  lemma UnnamedIsLegal()
    ensures LegalSpan(ARCHIVE, "o")
  {
    Roles();
  }

  lemma FourSpans(id: string)
    requires id in ARCHIVE
    ensures id == "r" || id == "s" || id == "a" || id == "o"
  {
  }

  lemma OneTrace()
    ensures TracesOf(ARCHIVE) == {"T"} && IdsOf(ARCHIVE, "T") == {"r", "s", "a", "o"}
  {
    assert ARCHIVE["r"].span.traceId == "T";
  }

  lemma SpansAre(attempt: Span, unnamed: Span)
    ensures
      var spans := CopyOf(attempt, unnamed);
      && "r" in spans && spans["r"] == RUN && "s" in spans && spans["s"] == STEP
      && "a" in spans && spans["a"] == attempt && "o" in spans && spans["o"] == unnamed
      && spans.Keys == {"r", "s", "a", "o"}
  {
    assert "s"[0] != "r"[0] && "a"[0] != "r"[0] && "o"[0] != "r"[0] && "a"[0] != "s"[0] && "o"[0] != "s"[0] && "o"[0] != "a"[0];
  }

  /** A copy of the one trace, with the four spans. */
  ghost predicate CopiesHold(copies: Copies, attempt: Span, unnamed: Span) {
    && copies.Keys == {"T"} && copies["T"].subject == "u"
    && var spans := copies["T"].spans;
    && spans.Keys == {"r", "s", "a", "o"}
    && spans["r"] == RUN && spans["s"] == STEP && spans["a"] == attempt && spans["o"] == unnamed
  }

  lemma CopiesAre(attempt: Span, unnamed: Span)
    ensures CopiesHold(CopiesOf(attempt, unnamed), attempt, unnamed)
  {
    SpansAre(attempt, unnamed);
  }

  lemma CopyIsRead(copies: Copies, attempt: Span, unnamed: Span)
    requires CopiesHold(copies, attempt, unnamed) && Stands(ATTEMPT, attempt) && Stands(UNNAMED, unnamed)
    ensures Read(ARCHIVE, copies)
  {
    OneTrace();
  }

  lemma SubjectsFit(copies: Copies)
    requires copies.Keys == {"T"} && copies["T"].subject == "u"
    ensures SubjectFits(RUN, copies) && SubjectFits(STEP, copies) && SubjectFits(ATTEMPT, copies) && SubjectFits(UNNAMED, copies)
  {
  }

  /** A copy of one span, as good as it in Python's equality. */
  ghost predicate Stands(span: Span, copy: Span) {
    copy.spanId == span.spanId && copy.traceId == span.traceId && LooselySame(Project(span), Project(copy))
  }

  lemma StandsForItself(span: Span)
    ensures Stands(span, span)
  {
    SameIsLooselySame(Project(span));
  }

  lemma RunAgrees(copies: Copies, attempt: Span, unnamed: Span)
    requires CopiesHold(copies, attempt, unnamed) && Read(ARCHIVE, copies)
    ensures FaithfulSpan(ARCHIVE, copies, "r")
  {
    SubjectsFit(copies);
    StandsForItself(RUN);
    AgreesAt(copies, "r", RUN, RUN);
  }

  lemma StepAgrees(copies: Copies, attempt: Span, unnamed: Span)
    requires CopiesHold(copies, attempt, unnamed) && Read(ARCHIVE, copies)
    ensures FaithfulSpan(ARCHIVE, copies, "s")
  {
    SubjectsFit(copies);
    StandsForItself(STEP);
    AgreesAt(copies, "s", STEP, STEP);
  }

  lemma AttemptAgrees(copies: Copies, attempt: Span, unnamed: Span)
    requires CopiesHold(copies, attempt, unnamed) && Read(ARCHIVE, copies) && Stands(ATTEMPT, attempt)
    ensures FaithfulSpan(ARCHIVE, copies, "a")
  {
    SubjectsFit(copies);
    AgreesAt(copies, "a", ATTEMPT, attempt);
  }

  lemma UnnamedAgrees(copies: Copies, attempt: Span, unnamed: Span)
    requires CopiesHold(copies, attempt, unnamed) && Read(ARCHIVE, copies) && Stands(UNNAMED, unnamed)
    ensures FaithfulSpan(ARCHIVE, copies, "o")
  {
    SubjectsFit(copies);
    AgreesAt(copies, "o", UNNAMED, unnamed);
  }

  lemma EachAgrees(copies: Copies, attempt: Span, unnamed: Span, id: string)
    requires CopiesHold(copies, attempt, unnamed) && Read(ARCHIVE, copies) && id in ARCHIVE
    requires Stands(ATTEMPT, attempt) && Stands(UNNAMED, unnamed)
    ensures FaithfulSpan(ARCHIVE, copies, id)
  {
    FourSpans(id);
    RunAgrees(copies, attempt, unnamed);
    StepAgrees(copies, attempt, unnamed);
    AttemptAgrees(copies, attempt, unnamed);
    UnnamedAgrees(copies, attempt, unnamed);
  }

  lemma IdsAgree(copies: Copies, attempt: Span, unnamed: Span)
    requires CopiesHold(copies, attempt, unnamed)
    ensures forall tid | tid in copies :: copies[tid].spans.Keys == IdsOf(ARCHIVE, tid)
  {
    OneTrace();
  }

  lemma FaithfulFrom(expected: SpanMap, copies: Copies)
    requires Read(expected, copies) && forall tid | tid in copies :: copies[tid].spans.Keys == IdsOf(expected, tid)
    requires forall id | id in expected :: FaithfulSpan(expected, copies, id)
    ensures Faithful(expected, copies)
  {
  }

  lemma CopyIsFaithful(copies: Copies, attempt: Span, unnamed: Span)
    requires CopiesHold(copies, attempt, unnamed) && Stands(ATTEMPT, attempt) && Stands(UNNAMED, unnamed)
    ensures Faithful(ARCHIVE, copies)
  {
    CopyIsRead(copies, attempt, unnamed);
    IdsAgree(copies, attempt, unnamed);
    forall id | id in ARCHIVE
      ensures FaithfulSpan(ARCHIVE, copies, id)
    {
      EachAgrees(copies, attempt, unnamed, id);
    }
    FaithfulFrom(ARCHIVE, copies);
  }

  lemma AgreesAt(copies: Copies, id: string, span: Span, copy: Span)
    requires Read(ARCHIVE, copies) && id in ARCHIVE && ARCHIVE[id].span == span && span.traceId == "T" && "T" in copies
    requires id in copies["T"].spans && copies["T"].spans[id] == copy && Stands(span, copy) && SubjectFits(span, copies)
    ensures FaithfulSpan(ARCHIVE, copies, id)
  {
  }

  lemma Refused(copies: Copies, actual: SpanMap, id: string, span: Span, copy: Span)
    requires Faithful(ARCHIVE, copies) && CopiedInPlace(ARCHIVE, copies, actual) && id in ARCHIVE && ARCHIVE[id].span == span
    requires span.traceId == "T" && Holding(copies, "T", id) && copies["T"].spans[id] == copy && !Readable(span, copy)
    ensures Legal(ARCHIVE) && !Legal(actual)
  {
    ArchiveIsLegal();
    FaithfulIsAcceptedWhen(ARCHIVE, copies, actual, 0, []);
  }

  lemma TruthEqualsOne()
    ensures Stands(ATTEMPT, TRUTHFUL)
  {
    assert Project(TRUTHFUL).attributes == Project(ATTEMPT).attributes[AttemptKey := Bool(true)];
  }

  lemma NullEqualsNothing()
    ensures Stands(UNNAMED, NULLED)
  {
    assert ["null", "[]", "{}"][0] == "null";
    SameIsLooselySame(Project(UNNAMED));
    assert Project(NULLED) == Project(UNNAMED);
  }

  lemma NotReadable()
    ensures !Readable(ATTEMPT, TRUTHFUL) && !Readable(UNNAMED, NULLED)
  {
    Roles();
  }

  /** The reader returns `true` for attempt number 1: equal in Python, refused by the recount. */
  lemma TruthIsNoAttemptNumber(actual: SpanMap)
    requires CopiedInPlace(ARCHIVE, CopiesOf(TRUTHFUL, UNNAMED), actual)
    ensures Legal(ARCHIVE) && Faithful(ARCHIVE, CopiesOf(TRUTHFUL, UNNAMED)) && !Legal(actual)
  {
    var copies := CopiesOf(TRUTHFUL, UNNAMED);
    StandsForItself(UNNAMED);
    TruthEqualsOne();
    CopiesAre(TRUTHFUL, UNNAMED);
    CopyIsFaithful(copies, TRUTHFUL, UNNAMED);
    NotReadable();
    Refused(copies, actual, "a", ATTEMPT, TRUTHFUL);
  }

  /** The reader returns a null name for a span without one: nothing in both projections, refused by the recount. */
  lemma NullIsNoName(actual: SpanMap)
    requires CopiedInPlace(ARCHIVE, CopiesOf(ATTEMPT, NULLED), actual)
    ensures Legal(ARCHIVE) && Faithful(ARCHIVE, CopiesOf(ATTEMPT, NULLED)) && !Legal(actual)
  {
    var copies := CopiesOf(ATTEMPT, NULLED);
    StandsForItself(ATTEMPT);
    NullEqualsNothing();
    CopiesAre(ATTEMPT, NULLED);
    CopyIsFaithful(copies, ATTEMPT, NULLED);
    NotReadable();
    Refused(copies, actual, "o", UNNAMED, NULLED);
  }
}

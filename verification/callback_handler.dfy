/**
 The LangGraph callback handler: Run and Step spans from a stream of start, end, error and close
 events (cord-langgraph-callbacks/src/cord_langgraph_callbacks/handler.py).
 */
module CallbackHandler {
  import opened Basics
  import opened Spans

  /** What the SDK draws for a new Run: its span and trace ids, and a Run identity if none is given. */
  datatype Drawn = Drawn(spanId: string, traceId: string, uuid: string)

  datatype Config =
    | NewRun(graph: string, subject: string, subjectType: string, runId: Option<string>, drawn: Drawn)
    | Reopen(traceId: string, runSpanId: string, run: string, subject: string, subjectType: string, graph: string)
  {
    function Root(): string {
      if NewRun? then drawn.spanId else runSpanId
    }

    function Trace(): string {
      if NewRun? then drawn.traceId else traceId
    }

    function RunText(): string {
      if Reopen? then run else if runId.Some? && runId.value != "" then runId.value else drawn.uuid
    }

    function Attributes(): Attributes {
      map[GraphKey := Str(graph), RunKey := Str(RunText()), SubjectKey := Str(subject), SubjectTypeKey := Str(subjectType)]
    }
  }

  datatype OpenStep = OpenStep(span: Span, namespace: string)

  /** A finished span; Steps remember the event run id they were open under. */
  datatype Ended = Ended(runId: Option<string>, span: Span)

  datatype Event =
    | Start(runId: string, tagged: bool, node: Option<string>, namespace: Option<string>, spanId: string, at: nat)
    | End(runId: string, at: nat)
    | Error(runId: string, interrupt: bool, at: nat)
    | Close(at: nat)

  datatype Handler = Handler(
    config: Config,
    resumedFrom: Option<string>,            // consumed by the first Step
    closed: bool,
    run: Option<Span>,                      // the Run span, once a Step has opened
    byRunId: map<string, OpenStep>,
    byNamespace: map<string, OpenStep>,
    awaiting: seq<(string, string)>,        // span id and namespace of each paused Step
    started: seq<Span>,                     // Steps, as started
    ended: multiset<Ended>)

  const PASSED: string := "passed"
  const FAILED: string := "failed"
  const AWAITING: string := "awaiting_approval"

  /** The position of the last namespace separator, or the length of the text. */
  function LastSeparator(s: string): (i: nat)
    ensures i <= |s|
    ensures i < |s| ==> s[i] == '|' && forall j | i < j < |s| :: s[j] != '|'
    ensures i == |s| ==> '|' !in s
  {
    if |s| == 0 then 0
    else if Last(s) == '|' then |s| - 1
    else
      var i := LastSeparator(s[..|s| - 1]);
      if i == |s| - 1 then |s| else i
  }

  /** The Step a new one hangs under, if its enclosing namespace is open. */
  function ParentStep(h: Handler, namespace: string): Option<OpenStep> {
    var i := LastSeparator(namespace);
    if i < |namespace| && namespace[..i] in h.byNamespace then Some(h.byNamespace[namespace[..i]]) else None
  }

  function RunSpan(config: Config, at: nat): Span {
    Span(config.Root(), config.Trace(), None, RunName, config.Attributes()[VersionKey := Str(SEMCONV_VERSION)], at, at, "")
  }

  function EnsureRun(h: Handler, at: nat): Handler {
    if h.run.Some? then h else h.(run := Some(RunSpan(h.config, at)))
  }

  function StepAttributes(h: Handler, node: string): Attributes {
    var attributes := h.config.Attributes()[NodeKey := Str(node)];
    if h.resumedFrom.Some? then attributes[ResumedFromKey := Str(h.resumedFrom.value)] else attributes
  }

  /** Whether a start event opens a Step. */
  predicate Opens(h: Handler, e: Event) {
    e.Start? && e.tagged && e.node.Some? && e.node.value != "" && e.namespace.Some? && e.namespace.value != "" && !h.closed
  }

  function NewStep(h: Handler, e: Event): Span
    requires Opens(h, e)
  {
    var up := ParentStep(h, e.namespace.value);
    Span(e.spanId, h.config.Trace(), Some(if up.Some? then up.value.span.spanId else h.config.Root()), StepName(e.node.value),
         StepAttributes(h, e.node.value)[OutcomeKey := Str(PASSED)], e.at, e.at, "")
  }

  function Settled(span: Span, outcome: string, at: nat): Span {
    span.(attributes := span.attributes[OutcomeKey := Str(outcome)], end := at)
  }

  /** One open Step leaves both indexes; the namespace index may hold another Step by now. */
  function Popped(h: Handler, runId: string, finished: Span): Handler
    requires runId in h.byRunId
  {
    h.(byRunId := h.byRunId - {runId},
       byNamespace := h.byNamespace - {h.byRunId[runId].namespace},
       ended := h.ended + multiset{Ended(Some(runId), finished)})
  }

  function Leaked(open: map<string, OpenStep>, at: nat): set<Ended> {
    set r | r in open :: Ended(Some(r), Settled(open[r].span, FAILED, at))
  }

  /** The Run span as it is exported; a reopened Run's own span is not recorded again. */
  function RunEnded(h: Handler, at: nat): multiset<Ended> {
    if h.run.Some? && h.config.NewRun? then multiset{Ended(None, h.run.value.(end := at))} else multiset{}
  }

  function EndedAtClose(h: Handler, at: nat): multiset<Ended> {
    h.ended + multiset(Leaked(h.byRunId, at)) + RunEnded(h, at)
  }

  function Next(h: Handler, e: Event): Handler {
    match e
    case Start(runId, _, _, namespace, _, at) =>
      if !Opens(h, e) then h
      else
        var step := OpenStep(NewStep(h, e), namespace.value);
        EnsureRun(h, at).(resumedFrom := None,
                          byRunId := h.byRunId[runId := step],
                          byNamespace := h.byNamespace[namespace.value := step],
                          started := h.started + [step.span])
    case End(runId, at) =>
      if runId in h.byRunId then Popped(h, runId, h.byRunId[runId].span.(end := at)) else h
    case Error(runId, interrupt, at) =>
      if runId !in h.byRunId then h
      else
        var open := h.byRunId[runId];
        if interrupt then
          Popped(h, runId, Settled(open.span, AWAITING, at)).(awaiting := h.awaiting + [(open.span.spanId, open.namespace)])
        else Popped(h, runId, Settled(open.span, FAILED, at))
    case Close(at) =>
      if h.closed then h
      else h.(closed := true, byRunId := map[], byNamespace := map[], ended := EndedAtClose(h, at))
  }

  function Initial(config: Config, resumedFrom: Option<string>): Handler {
    Handler(config, resumedFrom, false, None, map[], map[], [], [], multiset{})
  }

  /** The handler after a stretch of events. */
  function After(h: Handler, events: seq<Event>): Handler {
    if |events| == 0 then h else Next(After(h, events[..|events| - 1]), Last(events))
  }

  // ---------------------------------------------------------------- the object

  datatype ConfigError = BothModes | GraphRequired | SubjectRequired | SubjectTypeRequired

  predicate Given(argument: Option<string>) {
    argument.Some? && argument.value != ""
  }

  /** The constructor's own checks. */
  function Configure(graph: Option<string>, subject: Option<string>, subjectType: Option<string>, runId: Option<string>,
                     resume: Option<Config>, drawn: Drawn): (r: Result<Config, ConfigError>)
    requires resume.Some? ==> resume.value.Reopen?
    ensures r.Ok? <==> if resume.Some? then graph.None? && subject.None? && subjectType.None? && runId.None?
                       else Given(graph) && Given(subject) && Given(subjectType)
    ensures r.Ok? && resume.Some? ==> r.value == resume.value
    ensures r.Ok? && resume.None? ==> r.value == NewRun(graph.value, subject.value, subjectType.value, runId, drawn)
  {
    if resume.Some? then
      if graph.Some? || subject.Some? || subjectType.Some? || runId.Some? then Err(BothModes) else Ok(resume.value)
    else if graph.None? || graph.value == "" then Err(GraphRequired)
    else if subject.None? || subject.value == "" then Err(SubjectRequired)
    else if subjectType.None? || subjectType.value == "" then Err(SubjectTypeRequired)
    else Ok(NewRun(graph.value, subject.value, subjectType.value, runId, drawn))
  }

  class CordCallbackHandler {
    const config: Config
    var pendingResumedFrom: Option<string>
    var closed: bool
    var runSpan: Option<Span>
    var byRunId: map<string, OpenStep>
    var byNamespace: map<string, OpenStep>
    var awaitingApproval: seq<(string, string)>
    ghost var started: seq<Span>
    ghost var ended: multiset<Ended>

    ghost function Value(): Handler
      reads this
    {
      Handler(config, pendingResumedFrom, closed, runSpan, byRunId, byNamespace, awaitingApproval, started, ended)
    }

    constructor (config: Config, resumedFrom: Option<string>)
      ensures Value() == Initial(config, resumedFrom)
    {
      this.config := config;
      pendingResumedFrom := resumedFrom;
      closed, runSpan, byRunId, byNamespace, awaitingApproval := false, None, map[], map[], [];
      started, ended := [], multiset{};
    }

    method EnsureRunSpan(at: nat)
      modifies this`runSpan
      ensures Value() == EnsureRun(old(Value()), at)
    {
      if runSpan.Some? { return; }
      runSpan := Some(RunSpan(config, at));
    }

    method OnChainStart(runId: string, tagged: bool, node: Option<string>, namespace: Option<string>, spanId: string, at: nat)
      modifies this
      ensures Value() == Next(old(Value()), Start(runId, tagged, node, namespace, spanId, at))
    {
      if !tagged { return; }
      if node.None? || node.value == "" || namespace.None? || namespace.value == "" { return; }
      if closed { return; }
      EnsureRunSpan(at);
      var i := LastSeparator(namespace.value);
      var up := config.Root();
      if i < |namespace.value| && namespace.value[..i] in byNamespace {
        up := byNamespace[namespace.value[..i]].span.spanId;
      }
      var attributes := config.Attributes()[NodeKey := Str(node.value)];
      if pendingResumedFrom.Some? {
        attributes := attributes[ResumedFromKey := Str(pendingResumedFrom.value)];
      }
      pendingResumedFrom := None;
      var span := Span(spanId, config.Trace(), Some(up), StepName(node.value), attributes[OutcomeKey := Str(PASSED)], at, at, "");
      byRunId := byRunId[runId := OpenStep(span, namespace.value)];
      byNamespace := byNamespace[namespace.value := OpenStep(span, namespace.value)];
      started := started + [span];
    }

    method OnChainEnd(runId: string, at: nat)
      modifies this
      ensures Value() == Next(old(Value()), End(runId, at))
    {
      if runId in byRunId {
        var open := byRunId[runId];
        byRunId := byRunId - {runId};
        byNamespace := byNamespace - {open.namespace};
        ended := ended + multiset{Ended(Some(runId), open.span.(end := at))};
      }
    }

    method OnChainError(runId: string, interrupt: bool, at: nat)
      modifies this
      ensures Value() == Next(old(Value()), Error(runId, interrupt, at))
    {
      if runId !in byRunId { return; }
      var open := byRunId[runId];
      byRunId := byRunId - {runId};
      byNamespace := byNamespace - {open.namespace};
      var outcome := FAILED;
      if interrupt {
        outcome := AWAITING;
        awaitingApproval := awaitingApproval + [(open.span.spanId, open.namespace)];
      }
      ended := ended + multiset{Ended(Some(runId), Settled(open.span, outcome, at))};
    }

    method CloseHandler(at: nat)
      modifies this
      ensures Value() == Next(old(Value()), Close(at))
    {
      if closed { return; }
      EndLeaked(at);
      closed := true;
      byRunId, byNamespace := map[], map[];
      ended := ended + if runSpan.Some? && config.NewRun? then multiset{Ended(None, runSpan.value.(end := at))} else multiset{};
    }

    method EndLeaked(at: nat)
      modifies this`ended
      ensures ended == old(ended) + multiset(Leaked(byRunId, at))
    {
      var left := byRunId.Keys;
      ghost var done: set<Ended> := {};
      while left != {}
        invariant left <= byRunId.Keys
        invariant done == Leaked(byRunId - left, at) && ended == old(ended) + multiset(done)
        decreases left
      {
        var r :| r in left;
        var finished := Settled(byRunId[r].span, FAILED, at);
        LeakedOneMore(byRunId, left, r, at);
        ended := ended + multiset{Ended(Some(r), finished)};
        OneMore(old(ended), done, Ended(Some(r), finished));
        done := done + {Ended(Some(r), finished)};
        left := left - {r};
      }
      assert byRunId - {} == byRunId;
    }
  }

  lemma LeakedOneMore(open: map<string, OpenStep>, left: set<string>, r: string, at: nat)
    requires r in left && left <= open.Keys
    ensures
      var one := Ended(Some(r), Settled(open[r].span, FAILED, at));
      one !in Leaked(open - left, at) && Leaked(open - (left - {r}), at) == Leaked(open - left, at) + {one}
  {
    var one := Ended(Some(r), Settled(open[r].span, FAILED, at));
    assert r in open - (left - {r}) && one in Leaked(open - (left - {r}), at);
  }

  lemma OneMore<T>(m: multiset<T>, s: set<T>, x: T)
    requires x !in s
    ensures m + multiset(s) + multiset{x} == m + multiset(s + {x})
  {
  }
}

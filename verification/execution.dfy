/**
 The span producer: Run, Step, child Step and Attempt scopes, including failing, pausing and resumed
 ones (src/cord_runtime/execution.py).

 A program is what the instrumented code does: it opens scopes one inside another, raises, and
 catches. Each item carries the span id the SDK draws for it and the time that passes before it
 starts and ends, so clocks are arbitrary but strictly increasing.
 */
module Execution {
  import opened Basics
  import opened Spans
  import opened Viewer

  datatype StepOutcome = Passed | Repaired | StepFailed | AwaitingApproval | Halted {
    function Text(): string {
      match this
      case Passed => "passed"
      case Repaired => "repaired"
      case StepFailed => "failed"
      case AwaitingApproval => "awaiting_approval"
      case Halted => "halted"
    }
  }

  datatype AttemptOutcome = AttemptPassed | AttemptFailed | Escalated {
    function Text(): string {
      match this
      case AttemptPassed => "passed"
      case AttemptFailed => "failed"
      case Escalated => "escalated"
    }
  }

  /** An exception class; a pause set holds every class its `except` clause catches. */
  type Exception = nat

  const VALUE_ERROR: Exception := 0
  const ATTRIBUTE_ERROR: Exception := 1

  datatype Item =
    | Step(id: string, node: string, outcome: StepOutcome, resumedFrom: Option<string>, pause: Option<set<Exception>>,
           before: nat, body: seq<Item>, after: nat)
    | Attempt(id: string, number: int, tier: Option<string>, attemptOutcome: AttemptOutcome, before: nat, body: seq<Item>, after: nat)
    | Raise(exception: Exception)
    | Try(body: seq<Item>)

  datatype Flow = Normal | Raised(exception: Exception)

  /** What an open scope hands to the scopes opened inside it. */
  datatype Scope = Scope(
    kind: Kind,
    spanId: string,
    traceId: string,
    base: Attributes,      // identity, without any Node of its own
    own: Attributes,       // with the Step's Node, before its outcome
    pause: set<Exception>)

  /** Everything a stretch of program leaves behind. */
  datatype Effect = Effect(
    spans: map<string, Span>,  // by id: the exporter may deliver them in any order
    clock: nat,
    flow: Flow,
    children: seq<Node>,       // Steps opened directly in the enclosing scope, as executed
    attempts: seq<string>)     // Attempts of the enclosing Step, as executed

  function OptionalText(attributes: Attributes, key: Key, text: Option<string>): Attributes {
    match text
    case None => attributes
    case Some(s) => attributes[key := Str(s)]
  }

  predicate BadText(text: Option<string>) {
    text.Some? && Blank(text.value)
  }

  /** The scope a Step opens; a Run's own Steps pause on nothing unless told to. */
  function StepScope(item: Item, scope: Scope): Scope
    requires item.Step?
  {
    var own := OptionalText(scope.base[NodeKey := Str(item.node)], ResumedFromKey, item.resumedFrom);
    var inherited := if scope.kind == StepKind then scope.pause else {};
    Scope(StepKind, item.id, scope.traceId, scope.base, own, if item.pause.Some? then item.pause.value else inherited)
  }

  function StepSpan(item: Item, scope: Scope, start: nat, flow: Flow, end: nat): Span
    requires item.Step?
  {
    var inner := StepScope(item, scope);
    var outcome := match flow
      case Normal => item.outcome.Text()
      case Raised(e) => if e in inner.pause then AwaitingApproval.Text() else StepFailed.Text();
    Span(item.id, scope.traceId, Some(scope.spanId), StepName(item.node), inner.own[OutcomeKey := Str(outcome)], start, end, "")
  }

  function AttemptSpan(item: Item, scope: Scope, start: nat, flow: Flow, end: nat): Span
    requires item.Attempt?
  {
    var outcome := match flow
      case Normal => item.attemptOutcome.Text()
      case Raised(e) => if e in scope.pause then item.attemptOutcome.Text() else AttemptFailed.Text();
    Span(item.id, scope.traceId, Some(scope.spanId), AttemptName,
         OptionalText(scope.own[AttemptKey := Int(item.number)], TierKey, item.tier)[OutcomeKey := Str(outcome)], start, end, "")
  }

  predicate Refused(item: Item) {
    match item
    case Step(_, node, _, resumedFrom, _, _, _, _) => node == "" || BadText(resumedFrom)
    case Attempt(_, number, tier, _, _, _, _) => number < 1 || BadText(tier)
    case _ => false
  }

  function Exec(items: seq<Item>, scope: Scope, clock: nat): Effect
    decreases items, 1
  {
    if |items| == 0 then Effect(map[], clock, Normal, [], [])
    else
      var first := ExecOne(items[0], scope, clock);
      if first.flow.Raised? then first
      else
        var rest := Exec(items[1..], scope, first.clock);
        Effect(first.spans + rest.spans, rest.clock, rest.flow, first.children + rest.children, first.attempts + rest.attempts)
  }

  function ExecOne(item: Item, scope: Scope, clock: nat): Effect
    decreases item, 0
  {
    match item
    case Raise(e) => Effect(map[], clock, Raised(e), [], [])
    case Try(body) => Exec(body, scope, clock).(flow := Normal)
    case Step(_, _, _, _, _, before, body, after) =>
      if Refused(item) then Effect(map[], clock, Raised(VALUE_ERROR), [], [])
      else
        var start := clock + 1 + before;
        var inner := Exec(body, StepScope(item, scope), start);
        var end := inner.clock + 1 + after;
        Effect(inner.spans[item.id := StepSpan(item, scope, start, inner.flow, end)], end, inner.flow,
               [Node(item.id, inner.attempts, inner.children)], [])
    case Attempt(_, _, _, _, before, body, after) =>
      if scope.kind != StepKind then Effect(map[], clock, Raised(ATTRIBUTE_ERROR), [], [])
      else if Refused(item) then Effect(map[], clock, Raised(VALUE_ERROR), [], [])
      else
        var start := clock + 1 + before;
        var inner := Exec(body, scope, start);
        var end := inner.clock + 1 + after;
        Effect(inner.spans[item.id := AttemptSpan(item, scope, start, inner.flow, end)], end, inner.flow,
               inner.children, [item.id] + inner.attempts)
  }

  /** The span ids a program may draw. */
  function ItemIds(items: seq<Item>): seq<string>
    decreases items, 1
  {
    if |items| == 0 then [] else OneItemIds(items[0]) + ItemIds(items[1..])
  }

  function OneItemIds(item: Item): seq<string>
    decreases item, 0
  {
    match item
    case Raise(_) => []
    case Try(body) => ItemIds(body)
    case Step(id, _, _, _, _, _, body, _) => [id] + ItemIds(body)
    case Attempt(id, _, _, _, _, body, _) => [id] + ItemIds(body)
  }

  // ---------------------------------------------------------------- a logical Run

  /** Code run after `resume_run`, some time later. */
  datatype Resumption = Resumption(before: nat, body: seq<Item>)

  datatype Program = Program(
    id: string, traceId: string,
    graph: string, run: string, subject: string, subjectType: string,
    causedBy: Option<string>, cascadeDepth: int,
    openedAt: nat, body: seq<Item>, after: nat,
    resumptions: seq<Resumption>)

  /** What `run` demands; the subject type need only be non-empty. */
  predicate Accepted(p: Program) {
    && !Blank(p.subject) && p.subjectType != "" && !Blank(p.graph) && !Blank(p.run)
    && !BadText(p.causedBy) && p.cascadeDepth >= 0
  }

  function Identity(p: Program): Attributes {
    map[GraphKey := Str(p.graph), RunKey := Str(p.run), SubjectKey := Str(p.subject), SubjectTypeKey := Str(p.subjectType)]
  }

  function RunAttributes(p: Program): Attributes {
    OptionalText(Identity(p)[CascadeDepthKey := Int(p.cascadeDepth)], CausedByKey, p.causedBy)
  }

  function RunScope(p: Program): Scope {
    Scope(RunKind, p.id, p.traceId, RunAttributes(p), map[], {})
  }

  /** A reopened Run knows its identity only. */
  function ResumedScope(p: Program): Scope {
    Scope(RunKind, p.id, p.traceId, Identity(p), map[], {})
  }

  function Main(p: Program): Effect {
    Exec(p.body, RunScope(p), p.openedAt)
  }

  function RunSpan(p: Program): Span {
    Span(p.id, p.traceId, None, RunName, RunAttributes(p)[VersionKey := Str(SEMCONV_VERSION)], p.openedAt, Main(p).clock + 1 + p.after, "")
  }

  /** One stretch of a Run, then a later one. */
  function Joined(e: Effect, f: Effect): Effect {
    Effect(e.spans + f.spans, f.clock, Normal, e.children + f.children, e.attempts + f.attempts)
  }

  /** The first `n` resumptions, each after the one before. */
  function Resumed(p: Program, n: nat): Effect
    requires n <= |p.resumptions|
    decreases n, 1
  {
    if n == 0 then Effect(map[], Main(p).clock + 1 + p.after, Normal, [], []) else Joined(Resumed(p, n - 1), Stretch(p, n))
  }

  /** What is recorded after the `n`th `resume_run`. */
  function Stretch(p: Program, n: nat): Effect
    requires 0 < n <= |p.resumptions|
    decreases n, 0
  {
    Exec(p.resumptions[n - 1].body, ResumedScope(p), Resumed(p, n - 1).clock + p.resumptions[n - 1].before)
  }

  /** Every span of one logical Run, pauses and resumptions included. */
  function Emitted(p: Program): map<string, Span> {
    if Accepted(p) then (Main(p).spans + Resumed(p, |p.resumptions|).spans)[p.id := RunSpan(p)] else map[]
  }

  /** The call tree that was executed. */
  function Executed(p: Program): RunTree {
    RunTree(p.id, Main(p).children + Resumed(p, |p.resumptions|).children)
  }

  function ResumptionIds(rs: seq<Resumption>): seq<string> {
    if |rs| == 0 then [] else ResumptionIds(rs[..|rs| - 1]) + ItemIds(Last(rs).body)
  }

  function ProgramIds(p: Program): seq<string> {
    [p.id] + ItemIds(p.body) + ResumptionIds(p.resumptions)
  }

  // ---------------------------------------------------------------- what a program opens

  /** The Nodes of the Steps a stretch opens, and how control leaves it: read off its items, before any run. */
  datatype Opening = Opening(nodes: seq<string>, flow: Flow)

  function Opens(items: seq<Item>, kind: Kind): Opening
    decreases items, 1
  {
    if |items| == 0 then Opening([], Normal)
    else
      var first := OpensOne(items[0], kind);
      if first.flow.Raised? then first
      else
        var rest := Opens(items[1..], kind);
        Opening(first.nodes + rest.nodes, rest.flow)
  }

  function OpensOne(item: Item, kind: Kind): Opening
    decreases item, 0
  {
    match item
    case Raise(e) => Opening([], Raised(e))
    case Try(body) => Opening(Opens(body, kind).nodes, Normal)
    case Step(_, node, _, _, _, _, body, _) =>
      if Refused(item) then Opening([], Raised(VALUE_ERROR))
      else Opening([node] + Opens(body, StepKind).nodes, Opens(body, StepKind).flow)
    case Attempt(_, _, _, _, _, body, _) =>
      if kind != StepKind then Opening([], Raised(ATTRIBUTE_ERROR))
      else if Refused(item) then Opening([], Raised(VALUE_ERROR))
      else Opens(body, kind)
  }

  function ResumptionNodes(rs: seq<Resumption>): seq<string> {
    if |rs| == 0 then [] else ResumptionNodes(rs[..|rs| - 1]) + Opens(Last(rs).body, RunKind).nodes
  }

  /** Every Node a program opens a Step for, before and after its pauses. */
  function ProgramNodes(p: Program): seq<string> {
    Opens(p.body, RunKind).nodes + ResumptionNodes(p.resumptions)
  }

  /**
   The two demands of the archive that the producer does not make: it tests the subject type and
   the Node name only for emptiness, so a blank one is emitted and then refused.
   */
  predicate Spoken(p: Program) {
    !Blank(p.subjectType) && forall node | node in ProgramNodes(p) :: !Blank(node)
  }
}

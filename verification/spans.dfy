/** Normalized spans and their classification (src/cord_runtime/archive_query.py). */
module Spans {
  import opened Basics

  /**
   A typed attribute value. `Raw` stands for null, lists and objects, rendered so that two renderings
   are one exactly when the program finds the values equal.
   */
  datatype Value = Str(s: string) | Int(n: int) | Bool(b: bool) | Float(x: real) | Raw(r: string)

  type Attributes = map<Key, Value>

  /** Truth values count as numbers. */
  function Number(v: Value): Option<real> {
    match v
    case Int(n) => Some(n as real)
    case Bool(b) => Some(if b then 1.0 else 0.0)
    case Float(x) => Some(x)
    case _ => None
  }

  /** Python equality of JSON values: `True == 1 == 1.0`. */
  predicate LooselyEqual(a: Value, b: Value) {
    a == b || (Number(a).Some? && Number(a) == Number(b))
  }

  /** One normalized span. A falsy `parentSpanId` is `None`. `extra` renders every other field. */
  datatype Span = Span(
    spanId: string,
    traceId: string,
    parentId: Option<string>,
    name: Name,
    attributes: Attributes,
    start: nat,
    end: nat,
    extra: string)

  /** What `read_spans` stores for one span id: the span and where it was first read. */
  datatype Entry = Entry(span: Span, location: string)

  type SpanMap = map<string, Entry>

  datatype Kind = RunKind | StepKind | AttemptKind

  datatype Reason =
    | InvalidSpanName
    | UnclassifiedOutcome
    | MissingIdentity
    | RunNotRoot
    | UnsupportedVersion
    | MissingNode
    | InvalidStepOutcome
    | MissingParent(expected: Kind)
    | InvalidParentHierarchy(expected: Kind)
    | ParentIdentityMismatch
    | CyclicParentage
    | MissingRunAncestor
    | InvalidStepHierarchy
    | NestedStepVersion
    | InvalidAttemptNumber
    | InvalidAttemptOutcome
    | InvalidTier
    | NodeMismatch

  /** The attribute keys the program reads, each by its own name; any other key by its text. */
  datatype Key =
    | GraphKey        // cord.graph.id
    | RunKey          // cord.run.id
    | SubjectKey      // cord.subject.id
    | SubjectTypeKey  // cord.subject.type
    | VersionKey      // cord.semconv.version
    | NodeKey         // cord.node.name
    | OutcomeKey      // cord.outcome
    | AttemptKey      // cord.step.attempt
    | TierKey         // cord.tier
    | ResumedFromKey  // cord.resumed_from
    | CascadeDepthKey // cord.cascade.depth
    | CausedByKey     // cord.caused_by.run_id
    | OtherKey(text: string)

  /** A span name: absent, "attempt", "run", "step:" and a rest, any other text, or not a string. */
  datatype Name = NoName | AttemptName | RunName | StepName(rest: string) | Text(s: string) | NotText(v: Value)

  const SEMCONV_VERSION := "0.4.0"
  const SUPPORTED_RUN_VERSIONS: seq<string> := ["0.2.0", "0.3.0", SEMCONV_VERSION]

  const STEP_OUTCOMES: seq<string> := ["passed", "repaired", "failed", "awaiting_approval", "halted"]
  const ATTEMPT_OUTCOMES: seq<string> := ["passed", "failed", "escalated"]

  function Get(attributes: Attributes, key: Key): Option<Value> {
    if key in attributes then Some(attributes[key]) else None
  }

  predicate Nonblank(attributes: Attributes, key: Key) {
    key in attributes && attributes[key].Str? && !Blank(attributes[key].s)
  }

  predicate OneOf(attributes: Attributes, key: Key, allowed: seq<string>) {
    key in attributes && attributes[key].Str? && attributes[key].s in allowed
  }

  /** Classify one span, or `None` for an ordinary one; an unreadable span is an error. */
  function Role(span: Span): Result<Option<Kind>, Reason> {
    if span.name.NotText? then Err(InvalidSpanName)
    else if span.name.AttemptName? || AttemptKey in span.attributes then Ok(Some(AttemptKind))
    else if span.name.StepName? || NodeKey in span.attributes then Ok(Some(StepKind))
    else if span.name.RunName? || VersionKey in span.attributes then Ok(Some(RunKind))
    else if OutcomeKey in span.attributes then Err(UnclassifiedOutcome)
    else Ok(None)
  }

  predicate HasRole(span: Span, kind: Kind) {
    Role(span) == Ok(Some(kind))
  }

  /** The identity attributes are present and not blank. */
  predicate Identified(span: Span) {
    && Nonblank(span.attributes, GraphKey) && Nonblank(span.attributes, RunKey)
    && Nonblank(span.attributes, SubjectKey) && Nonblank(span.attributes, SubjectTypeKey)
  }

  predicate SameIdentifiers(a: Attributes, b: Attributes) {
    && Get(a, GraphKey) == Get(b, GraphKey) && Get(a, RunKey) == Get(b, RunKey)
    && Get(a, SubjectKey) == Get(b, SubjectKey) && Get(a, SubjectTypeKey) == Get(b, SubjectTypeKey)
  }

  predicate SameIdentity(a: Span, b: Span) {
    a.traceId == b.traceId && SameIdentifiers(a.attributes, b.attributes)
  }

  predicate Version(span: Span, version: string) {
    Get(span.attributes, VersionKey) == Some(Str(version))
  }

  /** Every entry is stored under its own span id, as `read_spans` and `compare` build it. */
  predicate Keyed(spans: SpanMap) {
    forall id | id in spans :: spans[id].span.spanId == id
  }

  predicate IsKind(spans: SpanMap, id: string, kind: Kind) {
    id in spans && HasRole(spans[id].span, kind)
  }

  /** `parent` is the recorded parent of the entry `child`. */
  predicate ParentOf(spans: SpanMap, child: string, parent: string) {
    child in spans && spans[child].span.parentId == Some(parent)
  }
}

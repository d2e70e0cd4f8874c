/**
 What two readers of the same spans must agree on (src/cord_runtime/langfuse_query.py, projection),
 and why nothing else matters to the archive contract.
 */
module Projection {
  import opened Basics
  import opened Spans
  import opened ArchiveQuery
  import opened Escalations

  datatype Projected = Projected(
    spanId: Option<string>,
    traceId: Option<string>,
    parentId: Option<string>,
    name: Name,
    start: Option<nat>,
    end: Option<nat>,
    attributes: Attributes)

  /** `span.get(key) or None` for a string. */
  function OrNone(s: string): Option<string> {
    if s == "" then None else Some(s)
  }

  function PositiveOrNone(n: nat): Option<nat> {
    if n == 0 then None else Some(n)
  }

  /** JSON values that are false in a condition. */
  predicate Falsy(v: Value) {
    match v
    case Str(s) => s == ""
    case Int(n) => n == 0
    case Bool(b) => !b
    case Float(x) => x == 0.0
    case Raw(r) => r in ["null", "[]", "{}"]
  }

  function NameOrNone(name: Name): Name {
    if name == Text("") || (name.NotText? && Falsy(name.v)) then NoName else name
  }

  /** Keys that start with "cord.". */
  predicate IsCord(key: Key) {
    key.OtherKey? ==> "cord." <= key.text
  }

  function CordAttributes(attributes: Attributes): Attributes {
    map k | k in attributes && IsCord(k) :: attributes[k]
  }

  function Project(span: Span): Projected {
    Projected(OrNone(span.spanId), OrNone(span.traceId), span.parentId, NameOrNone(span.name),
              PositiveOrNone(span.start), PositiveOrNone(span.end), CordAttributes(span.attributes))
  }

  predicate StringName(span: Span) {
    !span.name.NotText?
  }

  /** The execution keys the contract reads. */
  const CORD_KEYS: seq<Key> := [GraphKey, RunKey, SubjectKey, SubjectTypeKey, VersionKey, NodeKey, OutcomeKey, AttemptKey, TierKey]

  /** Python equality of two projections. */
  predicate LooselySame(a: Projected, b: Projected) {
    && a.(name := NoName, attributes := map[]) == b.(name := NoName, attributes := map[])
    && (a.name == b.name || (a.name.NotText? && b.name.NotText? && LooselyEqual(a.name.v, b.name.v)))
    && a.attributes.Keys == b.attributes.Keys
    && forall k | k in a.attributes :: LooselyEqual(a.attributes[k], b.attributes[k])
  }

  lemma SameIsLooselySame(a: Projected)
    ensures LooselySame(a, a)
  {
  }

  /** Both have the key or neither, and a text there is the same text. */
  predicate SameText(a: Attributes, b: Attributes, k: Key) {
    && (k in a <==> k in b)
    && (k in a && (a[k].Str? || b[k].Str?) ==> a[k] == b[k])
  }

  lemma TextAgrees(a: Span, b: Span, k: Key)
    requires LooselySame(Project(a), Project(b)) && k in CORD_KEYS
    ensures SameText(a.attributes, b.attributes, k)
    ensures k in a.attributes ==> LooselyEqual(a.attributes[k], b.attributes[k])
  {
    assert k in a.attributes <==> k in CordAttributes(a.attributes);
    assert k in b.attributes <==> k in CordAttributes(b.attributes);
    if k in a.attributes {
      assert LooselyEqual(CordAttributes(a.attributes)[k], CordAttributes(b.attributes)[k]);
    }
  }

  predicate Numbered(attributes: Attributes) {
    AttemptKey in attributes && attributes[AttemptKey].Int? && attributes[AttemptKey].n > 0
  }

  /** What the archive contract looks at: links, time, role, texts, and whether an Attempt is numbered. */
  ghost predicate SameFacts(a: Span, b: Span) {
    && a.traceId == b.traceId && a.parentId == b.parentId && a.start == b.start && a.end == b.end
    && Role(a) == Role(b)
    && (forall k | k in CORD_KEYS :: SameText(a.attributes, b.attributes, k))
    && (HasRole(a, AttemptKind) ==> (Numbered(a.attributes) <==> Numbered(b.attributes)))
  }

  /** What a loosely equal copy must still show: a textual name, and an integer on an Attempt. */
  predicate Readable(span: Span, copy: Span) {
    StringName(copy) && (HasRole(span, AttemptKind) ==> AttemptKey in copy.attributes && copy.attributes[AttemptKey].Int?)
  }

  lemma RoleAgrees(a: Span, b: Span)
    requires LooselySame(Project(a), Project(b)) && StringName(a) && StringName(b)
    ensures Role(a) == Role(b)
  {
    TextAgrees(a, b, AttemptKey);
    TextAgrees(a, b, NodeKey);
    TextAgrees(a, b, VersionKey);
    TextAgrees(a, b, OutcomeKey);
  }

  lemma LooseFixesFacts(a: Span, b: Span)
    requires LooselySame(Project(a), Project(b)) && StringName(a) && Readable(a, b)
    requires HasRole(a, AttemptKind) ==> AttemptKey in a.attributes && a.attributes[AttemptKey].Int?
    ensures SameFacts(a, b)
  {
    forall k | k in CORD_KEYS
      ensures SameText(a.attributes, b.attributes, k)
    {
      TextAgrees(a, b, k);
    }
    RoleAgrees(a, b);
    TextAgrees(a, b, AttemptKey);
  }

  lemma ProjectionFixesFacts(a: Span, b: Span)
    requires Project(a) == Project(b) && StringName(a) && StringName(b)
    ensures SameFacts(a, b)
  {
    SameIsLooselySame(Project(a));
    forall k | k in CORD_KEYS
      ensures SameText(a.attributes, b.attributes, k)
    {
      TextAgrees(a, b, k);
    }
    RoleAgrees(a, b);
    assert AttemptKey in CordAttributes(a.attributes) ==> CordAttributes(a.attributes)[AttemptKey] == CordAttributes(b.attributes)[AttemptKey];
    assert AttemptKey in a.attributes <==> AttemptKey in CordAttributes(a.attributes);
    assert AttemptKey in b.attributes <==> AttemptKey in CordAttributes(b.attributes);
  }

  lemma IdentityIsCord()
    ensures GraphKey in CORD_KEYS && RunKey in CORD_KEYS && SubjectKey in CORD_KEYS && SubjectTypeKey in CORD_KEYS
    ensures NodeKey in CORD_KEYS && OutcomeKey in CORD_KEYS && VersionKey in CORD_KEYS && TierKey in CORD_KEYS
  {
    assert CORD_KEYS[0] == GraphKey && CORD_KEYS[1] == RunKey && CORD_KEYS[2] == SubjectKey && CORD_KEYS[3] == SubjectTypeKey;
    assert CORD_KEYS[4] == VersionKey && CORD_KEYS[5] == NodeKey && CORD_KEYS[6] == OutcomeKey && CORD_KEYS[8] == TierKey;
  }

  lemma FactsFixIdentity(a: Span, b: Span)
    requires SameFacts(a, b)
    ensures Identified(a) <==> Identified(b)
    ensures Nonblank(a.attributes, NodeKey) <==> Nonblank(b.attributes, NodeKey)
    ensures LegalRun(a) <==> LegalRun(b)
    ensures OneOf(a.attributes, OutcomeKey, STEP_OUTCOMES) <==> OneOf(b.attributes, OutcomeKey, STEP_OUTCOMES)
    ensures OneOf(a.attributes, OutcomeKey, ATTEMPT_OUTCOMES) <==> OneOf(b.attributes, OutcomeKey, ATTEMPT_OUTCOMES)
    ensures GraphOf(a) == GraphOf(b) && NodeOf(a) == NodeOf(b)
    ensures forall reference :: EscalatedInWindow(a, reference) <==> EscalatedInWindow(b, reference)
  {
    IdentityIsCord();
  }

  /** A text is found again in `c` exactly where its copy is found again in `d`. */
  lemma TextFixesEquality(a: Attributes, b: Attributes, c: Attributes, d: Attributes, k: Key)
    requires SameText(a, b, k) && SameText(c, d, k) && Nonblank(a, k)
    ensures Get(a, k) == Get(c, k) <==> Get(b, k) == Get(d, k)
  {
  }

  lemma FactsFixComparison(a: Span, b: Span, c: Span, d: Span)
    requires SameFacts(a, b) && SameFacts(c, d) && Identified(a) && Nonblank(a.attributes, NodeKey)
    ensures SameIdentity(a, c) <==> SameIdentity(b, d)
    ensures forall v :: Version(c, v) <==> Version(d, v)
    ensures LegalTier(a, c) <==> LegalTier(b, d)
    ensures Get(a.attributes, NodeKey) == Get(c.attributes, NodeKey) <==> Get(b.attributes, NodeKey) == Get(d.attributes, NodeKey)
  {
    IdentityIsCord();
    TextFixesEquality(a.attributes, b.attributes, c.attributes, d.attributes, GraphKey);
    TextFixesEquality(a.attributes, b.attributes, c.attributes, d.attributes, RunKey);
    TextFixesEquality(a.attributes, b.attributes, c.attributes, d.attributes, SubjectKey);
    TextFixesEquality(a.attributes, b.attributes, c.attributes, d.attributes, SubjectTypeKey);
    TextFixesEquality(a.attributes, b.attributes, c.attributes, d.attributes, NodeKey);
    assert SameText(a.attributes, b.attributes, TierKey) && SameText(c.attributes, d.attributes, VersionKey);
  }

  /** The same ids, stating the same facts. */
  ghost predicate Alike(a: SpanMap, b: SpanMap) {
    a.Keys == b.Keys && forall id | id in a :: SameFacts(a[id].span, b[id].span)
  }

  lemma AlikeKinds(a: SpanMap, b: SpanMap)
    requires Alike(a, b)
    ensures forall id, kind :: IsKind(a, id, kind) <==> IsKind(b, id, kind)
    ensures forall child, parent :: ParentOf(a, child, parent) <==> ParentOf(b, child, parent)
  {
  }

  lemma AlikeChains(a: SpanMap, b: SpanMap, p: seq<string>)
    requires Alike(a, b) && Chain(a, p)
    ensures Chain(b, p)
  {
    AlikeKinds(a, b);
    forall i | 0 <= i < |p| - 1
      ensures IsKind(b, p[i], StepKind) && ParentOf(b, p[i], p[i + 1])
    {
      assert IsKind(a, p[i], StepKind) && ParentOf(a, p[i], p[i + 1]);
    }
  }

  lemma AlikeStep(a: SpanMap, b: SpanMap, id: string)
    requires Alike(a, b) && id in a && LocalStep(a, a[id].span) && Identified(a[id].span)
    ensures LocalStep(b, b[id].span)
  {
    var s, t := a[id].span, b[id].span;
    FactsFixIdentity(s, t);
    AlikeKinds(a, b);
    var up := s.parentId.value;
    FactsFixComparison(s, t, a[up].span, b[up].span);
    if IsKind(a, up, StepKind) {
      var p :| Chain(a, p) && p[0] == up && Version(a[Last(p)].span, SEMCONV_VERSION);
      AlikeChains(a, b, p);
      FactsFixComparison(s, t, a[Last(p)].span, b[Last(p)].span);
    }
  }

  lemma AlikeAttempt(a: SpanMap, b: SpanMap, id: string)
    requires Alike(a, b) && id in a && LocalAttempt(a, a[id].span) && Identified(a[id].span) && IsKind(a, id, AttemptKind)
    ensures LocalAttempt(b, b[id].span)
  {
    var s, t := a[id].span, b[id].span;
    FactsFixIdentity(s, t);
    AlikeKinds(a, b);
    assert Numbered(s.attributes) <==> Numbered(t.attributes);
    var up := s.parentId.value;
    FactsFixComparison(s, t, a[up].span, b[up].span);
    var p :| Chain(a, p) && p[0] == up && LegalTier(s, a[Last(p)].span);
    AlikeChains(a, b, p);
    FactsFixComparison(s, t, a[Last(p)].span, b[Last(p)].span);
  }

  lemma AlikeLegal(a: SpanMap, b: SpanMap)
    requires Alike(a, b) && Legal(a)
    ensures Legal(b)
  {
    LocalIsLegal(a);
    LocalIsLegal(b);
    forall id | id in b
      ensures LocalSpan(b, b[id].span)
    {
      assert LocalSpan(a, a[id].span);
      FactsFixIdentity(a[id].span, b[id].span);
      if IsKind(a, id, StepKind) {
        AlikeStep(a, b, id);
      } else if IsKind(a, id, AttemptKind) {
        AlikeAttempt(a, b, id);
      }
    }
  }

  lemma AlikeHits(a: SpanMap, b: SpanMap, reference: int)
    requires Alike(a, b)
    ensures EscalatedHits(a, reference) == EscalatedHits(b, reference)
  {
    forall id | id in a
      ensures id in b && (EscalatedInWindow(a[id].span, reference) <==> EscalatedInWindow(b[id].span, reference))
              && GraphOf(a[id].span) == GraphOf(b[id].span) && NodeOf(a[id].span) == NodeOf(b[id].span)
    {
      FactsFixIdentity(a[id].span, b[id].span);
    }
  }

  /** Span maps that state the same facts are both rejected or give identical rows. */
  lemma AlikeSameAnswer(a: SpanMap, b: SpanMap, reference: int, top: nat, rowsA: seq<Row>, rowsB: seq<Row>)
    requires Alike(a, b)
    ensures Legal(a) <==> Legal(b)
    ensures TopRows(a, reference, top, rowsA) && TopRows(b, reference, top, rowsB) ==> rowsA == rowsB
  {
    if Legal(a) { AlikeLegal(a, b); }
    if Legal(b) { AlikeLegal(b, a); }
    AlikeHits(a, b, reference);
    if TopRows(a, reference, top, rowsA) && TopRows(b, reference, top, rowsB) {
      QueryIsDeterministic(a, reference, top, rowsA, rowsB);
    }
  }

  /** Same ids, string names, and equal projections: vendor enrichment is free to differ. */
  ghost predicate SameProjections(a: SpanMap, b: SpanMap) {
    && a.Keys == b.Keys
    && (forall id | id in a :: StringName(a[id].span) && StringName(b[id].span) && Project(a[id].span) == Project(b[id].span))
  }

  /**
   A query factors through the projection: two span maps with equal projections are both rejected
   or give identical rows.
   */
  lemma QueryFactorsThroughProjection(a: SpanMap, b: SpanMap, reference: int, top: nat, rowsA: seq<Row>, rowsB: seq<Row>)
    requires SameProjections(a, b)
    ensures Legal(a) <==> Legal(b)
    ensures TopRows(a, reference, top, rowsA) && TopRows(b, reference, top, rowsB) ==> rowsA == rowsB
  {
    forall id | id in a
      ensures SameFacts(a[id].span, b[id].span)
    {
      ProjectionFixesFacts(a[id].span, b[id].span);
    }
    AlikeSameAnswer(a, b, reference, top, rowsA, rowsB);
  }
}

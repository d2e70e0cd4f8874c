/**
 The archive contract: which flat, unordered bags of spans are complete Run trees
 (src/cord_runtime/archive_query.py). `Legal` says it with ancestor paths; the methods check it
 the way the program does, span by span.
 */
module ArchiveQuery {
  import opened Basics
  import opened Spans

  // ---------------------------------------------------------------- ancestor paths

  /** `w` climbs parent links through Steps only, all of them present. */
  ghost predicate Walk(spans: SpanMap, w: seq<string>) {
    && |w| > 0
    && (forall i | 0 <= i < |w| :: w[i] in spans)
    && (forall i | 0 <= i < |w| - 1 :: IsKind(spans, w[i], StepKind) && ParentOf(spans, w[i], w[i + 1]))
  }

  /** A finite path from `p[0]`, through Steps, to the Run that owns it. */
  ghost predicate Chain(spans: SpanMap, p: seq<string>) {
    Walk(spans, p) && IsKind(spans, Last(p), RunKind)
  }

  lemma {:induction false} WalkIsPrefix(spans: SpanMap, w: seq<string>, p: seq<string>)
    requires Walk(spans, w) && Chain(spans, p) && w[0] == p[0]
    ensures |w| <= |p| && w == p[..|w|]
    decreases |w|
  {
    if |w| > 1 {
      var front := w[..|w| - 1];
      WalkIsPrefix(spans, front, p);
      var i := |w| - 2;
      assert w[i] == front[i] == p[i];
      assert IsKind(spans, p[i], StepKind);
      assert i < |p| - 1;
      assert ParentOf(spans, p[i], p[i + 1]) && ParentOf(spans, w[i], w[i + 1]);
    }
  }

  /** The path to the Run is unique. */
  lemma ChainUnique(spans: SpanMap, p: seq<string>, q: seq<string>)
    requires Chain(spans, p) && Chain(spans, q) && p[0] == q[0]
    ensures p == q
  {
    WalkIsPrefix(spans, p, q);
    WalkIsPrefix(spans, q, p);
  }

  lemma ChainSuffix(spans: SpanMap, p: seq<string>, i: nat)
    requires Chain(spans, p) && i < |p|
    ensures Chain(spans, p[i..]) && p[i..][0] == p[i]
  {
    var q := p[i..];
    forall j | 0 <= j < |q| - 1
      ensures IsKind(spans, q[j], StepKind) && ParentOf(spans, q[j], q[j + 1])
    {
      assert q[j] == p[i + j] && q[j + 1] == p[i + j + 1];
    }
  }

  /** No span is its own ancestor on a path that reaches a Run. */
  lemma ChainAcyclic(spans: SpanMap, p: seq<string>)
    requires Chain(spans, p)
    ensures NoDup(p)
  {
    forall i, j | 0 <= i < j < |p|
      ensures p[i] != p[j]
    {
      if p[i] == p[j] {
        ChainSuffix(spans, p, i);
        ChainSuffix(spans, p, j);
        ChainUnique(spans, p[i..], p[j..]);
      }
    }
  }

  lemma ChainExtend(spans: SpanMap, id: string, p: seq<string>)
    requires Chain(spans, p) && IsKind(spans, id, StepKind) && ParentOf(spans, id, p[0])
    ensures Chain(spans, [id] + p)
  {
    var q := [id] + p;
    assert Last(q) == Last(p);
    forall i | 0 <= i < |q| - 1
      ensures IsKind(spans, q[i], StepKind) && ParentOf(spans, q[i], q[i + 1])
    {
      if i > 0 {
        assert q[i] == p[i - 1] && q[i + 1] == p[i];
      }
    }
    forall i | 0 <= i < |q|
      ensures q[i] in spans
    {
      if i > 0 {
        assert q[i] == p[i - 1];
      }
    }
  }

  // ---------------------------------------------------------------- the legal forest

  /** `id` lies on a cycle-free path to a Run whose every span shares its trace and identity. */
  ghost predicate RootedBy(spans: SpanMap, id: string, p: seq<string>) {
    && Chain(spans, p) && p[0] == id && NoDup(p)
    && (forall i | 0 <= i < |p| :: SameIdentity(spans[id].span, spans[p[i]].span))
  }

  predicate LegalRun(span: Span) {
    span.parentId.None? && OneOf(span.attributes, VersionKey, SUPPORTED_RUN_VERSIONS)
  }

  ghost predicate LegalStep(spans: SpanMap, id: string)
    requires id in spans
  {
    var span := spans[id].span;
    && Nonblank(span.attributes, NodeKey)
    && OneOf(span.attributes, OutcomeKey, STEP_OUTCOMES)
    && (exists p :: RootedBy(spans, id, p) && |p| >= 2
                    && (|p| > 2 ==> Version(spans[Last(p)].span, SEMCONV_VERSION)))
  }

  predicate LegalTier(span: Span, root: Span) {
    Version(root, "0.2.0") || TierKey in span.attributes ==> Nonblank(span.attributes, TierKey)
  }

  ghost predicate LegalAttempt(spans: SpanMap, id: string)
    requires id in spans
  {
    var span := spans[id].span;
    && Nonblank(span.attributes, NodeKey)
    && (AttemptKey in span.attributes && span.attributes[AttemptKey].Int? && span.attributes[AttemptKey].n > 0)
    && OneOf(span.attributes, OutcomeKey, ATTEMPT_OUTCOMES)
    && span.parentId.Some?
    && IsKind(spans, span.parentId.value, StepKind)
    && SameIdentity(span, spans[span.parentId.value].span)
    && Get(span.attributes, NodeKey) == Get(spans[span.parentId.value].span.attributes, NodeKey)
    && (exists p :: RootedBy(spans, span.parentId.value, p) && LegalTier(span, spans[Last(p)].span))
  }

  ghost predicate LegalSpan(spans: SpanMap, id: string)
    requires id in spans
  {
    var span := spans[id].span;
    match Role(span)
    case Err(_) => false
    case Ok(None) => true
    case Ok(Some(kind)) =>
      Identified(span) &&
      match kind
      case RunKind => LegalRun(span)
      case StepKind => LegalStep(spans, id)
      case AttemptKind => LegalAttempt(spans, id)
  }

  /** The spans form complete Run trees. */
  ghost predicate Legal(spans: SpanMap) {
    forall id {:trigger LegalSpan(spans, id)} | id in spans :: LegalSpan(spans, id)
  }

  // ---------------------------------------------------------------- the program's own checks

  /** The immediate parent, which must have the expected role, trace and identity. */
  function Parent(spans: SpanMap, span: Span, expected: Kind): (r: Result<Span, Reason>)
    ensures r.Ok? <==> span.parentId.Some? && IsKind(spans, span.parentId.value, expected)
                       && SameIdentity(span, spans[span.parentId.value].span)
    ensures r.Ok? ==> r.value == spans[span.parentId.value].span
  {
    if span.parentId.None? || span.parentId.value !in spans then Err(MissingParent(expected))
    else
      var result := spans[span.parentId.value].span;
      match Role(result)
      case Err(reason) => Err(reason)
      case Ok(kind) =>
        if kind != Some(expected) || result.traceId != span.traceId then Err(InvalidParentHierarchy(expected))
        else if !SameIdentifiers(span.attributes, result.attributes) then
          Err(ParentIdentityMismatch)
        else Ok(result)
  }

  /** Why a climb from a Step never reaches a Run. */
  ghost predicate Strays(spans: SpanMap, w: seq<string>, reason: Reason) {
    && Walk(spans, w)
    && match reason
       case CyclicParentage => exists i | 0 <= i < |w| - 1 :: w[i] == Last(w)
       case MissingRunAncestor =>
         && IsKind(spans, Last(w), StepKind)
         && (spans[Last(w)].span.parentId.None? || spans[Last(w)].span.parentId.value !in spans)
       case InvalidStepHierarchy =>
         |w| > 1 && Role(spans[Last(w)].span).Ok? && !IsKind(spans, Last(w), RunKind) && !IsKind(spans, Last(w), StepKind)
       case other => |w| > 1 && Role(spans[Last(w)].span) == Err(other)
  }

  ghost predicate RootIs(spans: SpanMap, id: string, root: Span) {
    exists p :: Chain(spans, p) && p[0] == id && root == spans[Last(p)].span
  }

  ghost predicate Unrooted(spans: SpanMap, id: string, reason: Reason) {
    && (forall p | Chain(spans, p) :: p[0] != id)
    && (exists w :: Strays(spans, w, reason) && w[0] == id)
  }

  /** The climb so far: a walk from the Step to `current`, with all but its end seen. */
  ghost predicate Climbing(spans: SpanMap, step: Span, w: seq<string>, current: Span, seen: set<string>) {
    && Keyed(spans) && Walk(spans, w) && w[0] == step.spanId && spans[Last(w)].span == current
    && seen == Elements(w[..|w| - 1]) && Last(w) == current.spanId
  }

  lemma ClimbsOn(spans: SpanMap, step: Span, w: seq<string>, current: Span, seen: set<string>)
    requires Climbing(spans, step, w, current, seen) && HasRole(current, StepKind) && current.parentId.Some? && current.parentId.value in spans
    ensures Climbing(spans, step, w + [current.parentId.value], spans[current.parentId.value].span, seen + {current.spanId})
  {
    var up := current.parentId.value;
    WalkExtend(spans, w, up);
    assert (w + [up])[..|w|] == w && w == w[..|w| - 1] + [Last(w)];
  }

  /**
   Climb to the Run that owns a Step. Stops on every input, cyclic ones included: it succeeds
   exactly when a path to a Run exists, and otherwise says how the climb went astray.
   */
  method RunRoot(spans: SpanMap, step: Span) returns (r: Result<Span, Reason>)
    requires Keyed(spans) && IsKind(spans, step.spanId, StepKind) && spans[step.spanId].span == step
    ensures r.Ok? ==> RootIs(spans, step.spanId, r.value)
    ensures r.Err? ==> Unrooted(spans, step.spanId, r.error)
  {
    var seen: set<string> := {};
    var current := step;
    ghost var w := [step.spanId];
    while !HasRole(current, RunKind)
      invariant Climbing(spans, step, w, current, seen)
      invariant HasRole(current, StepKind) || HasRole(current, RunKind)
      decreases |spans.Keys - seen|
    {
      if current.spanId in seen {
        NoChainInCycle(spans, w);
        return Err(CyclicParentage);
      }
      SmallerWithout(spans.Keys, seen, current.spanId);
      if current.parentId.None? || current.parentId.value !in spans {
        NoChainPastEnd(spans, w);
        return Err(MissingRunAncestor);
      }
      ClimbsOn(spans, step, w, current, seen);
      seen := seen + {current.spanId};
      w := w + [current.parentId.value];
      current := spans[current.parentId.value].span;
      var role := Role(current);
      if role.Err? {
        NoChainThroughOther(spans, w);
        return Err(role.error);
      }
      if role.value != Some(RunKind) && role.value != Some(StepKind) {
        NoChainThroughOther(spans, w);
        return Err(InvalidStepHierarchy);
      }
    }
    assert Chain(spans, w);
    return Ok(current);
  }

  lemma SmallerWithout(all: set<string>, seen: set<string>, x: string)
    requires x in all && x !in seen
    ensures |all - (seen + {x})| < |all - seen|
  {
    assert all - seen == (all - (seen + {x})) + {x};
  }

  lemma WalkExtend(spans: SpanMap, w: seq<string>, up: string)
    requires Walk(spans, w) && IsKind(spans, Last(w), StepKind) && ParentOf(spans, Last(w), up) && up in spans
    ensures Walk(spans, w + [up]) && Last(w + [up]) == up && (w + [up])[0] == w[0]
    ensures Elements((w + [up])[..|w|]) == Elements(w[..|w| - 1]) + {Last(w)}
  {
    var v := w + [up];
    forall i | 0 <= i < |v| - 1
      ensures IsKind(spans, v[i], StepKind) && ParentOf(spans, v[i], v[i + 1])
    {
      if i < |w| - 1 {
        assert v[i] == w[i] && v[i + 1] == w[i + 1];
      }
    }
    assert v[..|w|] == w == w[..|w| - 1] + [Last(w)];
  }

  /** Where a walk stands on the path to the Run, if there is one. */
  lemma WalkInChain(spans: SpanMap, w: seq<string>, p: seq<string>)
    requires Walk(spans, w) && Chain(spans, p) && w[0] == p[0]
    ensures NoDup(w)
    ensures IsKind(spans, Last(w), RunKind)
            || (IsKind(spans, Last(w), StepKind) && spans[Last(w)].span.parentId.Some? && spans[Last(w)].span.parentId.value in spans)
  {
    WalkIsPrefix(spans, w, p);
    ChainAcyclic(spans, p);
    assert Last(w) == p[|w| - 1];
    if |w| < |p| {
      assert IsKind(spans, p[|w| - 1], StepKind) && ParentOf(spans, p[|w| - 1], p[|w|]);
    }
    forall i, j | 0 <= i < j < |w|
      ensures w[i] != w[j]
    {
      assert w[i] == p[i] && w[j] == p[j];
    }
  }

  lemma NoChainInCycle(spans: SpanMap, w: seq<string>)
    requires Walk(spans, w) && Last(w) in Elements(w[..|w| - 1])
    ensures Unrooted(spans, w[0], CyclicParentage)
  {
    var i :| 0 <= i < |w| - 1 && w[..|w| - 1][i] == Last(w);
    assert w[i] == w[|w| - 1];
    assert Strays(spans, w, CyclicParentage);
    forall p | Chain(spans, p)
      ensures p[0] != w[0]
    {
      if p[0] == w[0] {
        WalkInChain(spans, w, p);
      }
    }
  }

  lemma NoChainPastEnd(spans: SpanMap, w: seq<string>)
    requires Walk(spans, w) && IsKind(spans, Last(w), StepKind)
    requires spans[Last(w)].span.parentId.None? || spans[Last(w)].span.parentId.value !in spans
    ensures Unrooted(spans, w[0], MissingRunAncestor)
  {
    assert Strays(spans, w, MissingRunAncestor);
    forall p | Chain(spans, p)
      ensures p[0] != w[0]
    {
      if p[0] == w[0] {
        WalkInChain(spans, w, p);
      }
    }
  }

  lemma NoChainThroughOther(spans: SpanMap, w: seq<string>)
    requires Walk(spans, w) && |w| > 1 && !IsKind(spans, Last(w), StepKind) && !IsKind(spans, Last(w), RunKind)
    ensures match Role(spans[Last(w)].span)
            case Ok(_) => Unrooted(spans, w[0], InvalidStepHierarchy)
            case Err(reason) => Unrooted(spans, w[0], reason)
  {
    match Role(spans[Last(w)].span) {
      case Ok(_) => assert Strays(spans, w, InvalidStepHierarchy);
      case Err(reason) => assert Strays(spans, w, reason);
    }
    forall p | Chain(spans, p)
      ensures p[0] != w[0]
    {
      if p[0] == w[0] {
        WalkInChain(spans, w, p);
      }
    }
  }

  // ---------------------------------------------------------------- one span

  const WINDOW_NS: int := 56 * 86400 * 1_000_000_000

  /** An Attempt that escalated inside the half-open window ending at the reference time. */
  predicate EscalatedInWindow(span: Span, reference: int) {
    && HasRole(span, AttemptKind)
    && Get(span.attributes, OutcomeKey) == Some(Str("escalated"))
    && reference - WINDOW_NS < span.end <= reference
  }

  /** What the check of one span accepts, one parent link at a time. */
  ghost predicate LocalStep(spans: SpanMap, span: Span) {
    && Nonblank(span.attributes, NodeKey)
    && OneOf(span.attributes, OutcomeKey, STEP_OUTCOMES)
    && span.parentId.Some?
    && (IsKind(spans, span.parentId.value, RunKind) || IsKind(spans, span.parentId.value, StepKind))
    && SameIdentity(span, spans[span.parentId.value].span)
    && (IsKind(spans, span.parentId.value, StepKind) ==>
          exists p :: Chain(spans, p) && p[0] == span.parentId.value && Version(spans[Last(p)].span, SEMCONV_VERSION))
  }

  ghost predicate LocalAttempt(spans: SpanMap, span: Span) {
    && Nonblank(span.attributes, NodeKey)
    && (AttemptKey in span.attributes && span.attributes[AttemptKey].Int? && span.attributes[AttemptKey].n > 0)
    && OneOf(span.attributes, OutcomeKey, ATTEMPT_OUTCOMES)
    && span.parentId.Some?
    && IsKind(spans, span.parentId.value, StepKind)
    && SameIdentity(span, spans[span.parentId.value].span)
    && (exists p :: Chain(spans, p) && p[0] == span.parentId.value && LegalTier(span, spans[Last(p)].span))
    && Get(span.attributes, NodeKey) == Get(spans[span.parentId.value].span.attributes, NodeKey)
  }

  ghost predicate LocalSpan(spans: SpanMap, span: Span) {
    match Role(span)
    case Err(_) => false
    case Ok(None) => true
    case Ok(Some(kind)) =>
      Identified(span) &&
      match kind
      case RunKind => LegalRun(span)
      case StepKind => LocalStep(spans, span)
      case AttemptKind => LocalAttempt(spans, span)
  }

  /** The body of the per-span loop; on success, whether the span is to be counted. */
  method CheckSpan(spans: SpanMap, span: Span, reference: int) returns (r: Result<bool, Reason>)
    requires Keyed(spans)
    ensures r.Ok? <==> LocalSpan(spans, span)
    ensures r.Ok? ==> r.value == EscalatedInWindow(span, reference)
  {
    var role := Role(span);
    if role.Err? { return Err(role.error); }
    if role.value.None? { return Ok(false); }
    var attrs := span.attributes;
    if !Identified(span) { return Err(MissingIdentity); }
    if role.value.value == RunKind {
      if span.parentId.Some? { return Err(RunNotRoot); }
      if !OneOf(attrs, VersionKey, SUPPORTED_RUN_VERSIONS) { return Err(UnsupportedVersion); }
      return Ok(false);
    }
    if !Nonblank(attrs, NodeKey) { return Err(MissingNode); }
    if role.value.value == StepKind {
      r := CheckStep(spans, span);
      return;
    }
    if !(AttemptKey in attrs && attrs[AttemptKey].Int? && attrs[AttemptKey].n > 0) {
      return Err(InvalidAttemptNumber);
    }
    if !OneOf(attrs, OutcomeKey, ATTEMPT_OUTCOMES) { return Err(InvalidAttemptOutcome); }
    var step := Parent(spans, span, StepKind);
    if step.Err? { return Err(step.error); }
    var root := RunRoot(spans, step.value);
    if root.Err? { return Err(root.error); }
    UniqueRoot(spans, step.value.spanId, root.value);
    if Version(root.value, "0.2.0") || TierKey in attrs {
      if !Nonblank(attrs, TierKey) { return Err(InvalidTier); }
    }
    if Get(attrs, NodeKey) != Get(step.value.attributes, NodeKey) { return Err(NodeMismatch); }
    return Ok(Get(attrs, OutcomeKey) == Some(Str("escalated")) && reference - WINDOW_NS < span.end <= reference);
  }

  method CheckStep(spans: SpanMap, span: Span) returns (r: Result<bool, Reason>)
    requires Keyed(spans) && Nonblank(span.attributes, NodeKey)
    ensures r.Ok? <==> LocalStep(spans, span)
    ensures r.Ok? ==> r.value == false
  {
    if !OneOf(span.attributes, OutcomeKey, STEP_OUTCOMES) { return Err(InvalidStepOutcome); }
    if span.parentId.None? || span.parentId.value !in spans { return Err(MissingParent(StepKind)); }
    var parentRole := Role(spans[span.parentId.value].span);
    if parentRole.Err? { return Err(parentRole.error); }
    if parentRole.value != Some(RunKind) && parentRole.value != Some(StepKind) { return Err(InvalidStepHierarchy); }
    var up := Parent(spans, span, parentRole.value.value);
    if up.Err? { return Err(up.error); }
    if parentRole.value == Some(StepKind) {
      var root := RunRoot(spans, up.value);
      if root.Err? { return Err(root.error); }
      UniqueRoot(spans, up.value.spanId, root.value);
      if !Version(root.value, SEMCONV_VERSION) { return Err(NestedStepVersion); }
    }
    return Ok(false);
  }

  /** Every path from one span ends at the same Run. */
  lemma UniqueRoot(spans: SpanMap, id: string, root: Span)
    requires RootIs(spans, id, root)
    ensures forall q | Chain(spans, q) && q[0] == id :: spans[Last(q)].span == root
  {
    var p :| Chain(spans, p) && p[0] == id && root == spans[Last(p)].span;
    forall q | Chain(spans, q) && q[0] == id
      ensures spans[Last(q)].span == root
    {
      ChainUnique(spans, p, q);
    }
  }

  // ---------------------------------------------------------------- local checks against the forest

  ghost predicate AllLocal(spans: SpanMap) {
    forall id {:trigger LocalSpan(spans, spans[id].span)} | id in spans :: LocalSpan(spans, spans[id].span)
  }

  /** Checking each link on its own turn fixes the identity of the whole path. */
  lemma {:induction false} SharedAlongPath(spans: SpanMap, p: seq<string>)
    requires AllLocal(spans) && Chain(spans, p)
    ensures forall i | 0 <= i < |p| :: SameIdentity(spans[p[0]].span, spans[p[i]].span)
    decreases |p|
  {
    if |p| > 1 {
      ChainSuffix(spans, p, 1);
      SharedAlongPath(spans, p[1..]);
      assert LocalSpan(spans, spans[p[0]].span);
      forall i | 0 <= i < |p|
        ensures SameIdentity(spans[p[0]].span, spans[p[i]].span)
      {
        if i > 0 {
          assert p[1..][i - 1] == p[i];
        }
      }
    }
  }

  lemma RootedByChain(spans: SpanMap, id: string, p: seq<string>)
    requires AllLocal(spans) && Chain(spans, p) && p[0] == id
    ensures RootedBy(spans, id, p)
  {
    SharedAlongPath(spans, p);
    ChainAcyclic(spans, p);
  }

  lemma LocalStepIsLegal(spans: SpanMap, id: string)
    requires AllLocal(spans) && IsKind(spans, id, StepKind)
    ensures LegalStep(spans, id)
  {
    var span := spans[id].span;
    assert LocalSpan(spans, span);
    var up := span.parentId.value;
    if IsKind(spans, up, RunKind) {
      var p := [id, up];
      assert Chain(spans, [up]);
      ChainExtend(spans, id, [up]);
      assert [id] + [up] == p;
      RootedByChain(spans, id, p);
    } else {
      var q :| Chain(spans, q) && q[0] == up && Version(spans[Last(q)].span, SEMCONV_VERSION);
      ChainExtend(spans, id, q);
      assert Last([id] + q) == Last(q);
      RootedByChain(spans, id, [id] + q);
    }
  }

  lemma LocalAttemptIsLegal(spans: SpanMap, id: string)
    requires AllLocal(spans) && IsKind(spans, id, AttemptKind)
    ensures LegalAttempt(spans, id)
  {
    var span := spans[id].span;
    assert LocalSpan(spans, span);
    var step := span.parentId.value;
    var p :| Chain(spans, p) && p[0] == step && LegalTier(span, spans[Last(p)].span);
    RootedByChain(spans, step, p);
  }

  lemma LegalStepIsLocal(spans: SpanMap, id: string)
    requires IsKind(spans, id, StepKind) && LegalStep(spans, id)
    ensures LocalStep(spans, spans[id].span)
  {
    var p :| RootedBy(spans, id, p) && |p| >= 2 && (|p| > 2 ==> Version(spans[Last(p)].span, SEMCONV_VERSION));
    assert ParentOf(spans, p[0], p[1]);
    if IsKind(spans, p[1], StepKind) {
      ChainSuffix(spans, p, 1);
      assert Last(p[1..]) == Last(p);
    } else {
      assert |p| == 2;
    }
  }

  /** Checking links one at a time accepts exactly the forests. */
  lemma LocalIsLegal(spans: SpanMap)
    ensures AllLocal(spans) <==> Legal(spans)
  {
    if AllLocal(spans) {
      forall id | id in spans
        ensures LegalSpan(spans, id)
      {
        assert LocalSpan(spans, spans[id].span);
        if IsKind(spans, id, StepKind) {
          LocalStepIsLegal(spans, id);
        } else if IsKind(spans, id, AttemptKind) {
          LocalAttemptIsLegal(spans, id);
        }
      }
    }
    if Legal(spans) {
      forall id | id in spans
        ensures LocalSpan(spans, spans[id].span)
      {
        assert LegalSpan(spans, id);
        if IsKind(spans, id, StepKind) {
          LegalStepIsLocal(spans, id);
        }
      }
    }
  }
}

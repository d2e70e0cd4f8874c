/** What each emitted span says, as the program's items tell before any run (src/cord_runtime/execution.py). */
module ExecutionOutcomes {
  import opened Basics
  import opened Spans
  import opened Execution
  import opened ExecutionFacts
  import ExecutionNames
  import RoundTrip

  /** A span's place, Node, link and outcome, and an Attempt's number and Tier. */
  datatype Saying =
    | SaysStep(up: string, node: string, resumedFrom: Option<string>, outcome: string)
    | SaysAttempt(up: string, node: string, resumedFrom: Option<string>, number: int, tier: Option<string>, outcome: string)

  /** Where an item stands: the span above it, its Node and link if that is a Step, and what counts as a pause there. */
  datatype Place = Place(kind: Kind, up: string, node: string, resumedFrom: Option<string>, pauses: set<Exception>)

  /** A Step pauses on its own set if it is given one, and else on its parent Step's; under a Run on nothing. */
  function Inside(item: Item, place: Place): Place
    requires item.Step?
  {
    Place(StepKind, item.id, item.node, item.resumedFrom,
          if item.pause.Some? then item.pause.value else if place.kind == StepKind then place.pauses else {})
  }

  function StepSays(item: Item, place: Place): Saying
    requires item.Step?
  {
    var left := Opens(item.body, StepKind).flow;
    SaysStep(place.up, item.node, item.resumedFrom,
             match left
             case Normal => item.outcome.Text()
             case Raised(e) => if e in Inside(item, place).pauses then "awaiting_approval" else "failed")
  }

  function AttemptSays(item: Item, place: Place): Saying
    requires item.Attempt?
  {
    var left := Opens(item.body, place.kind).flow;
    SaysAttempt(place.up, place.node, place.resumedFrom, item.number, item.tier,
                match left
                case Normal => item.attemptOutcome.Text()
                case Raised(e) => if e in place.pauses then item.attemptOutcome.Text() else "failed")
  }

  function Foretell(items: seq<Item>, place: Place): map<string, Saying>
    decreases items, 1
  {
    if |items| == 0 then map[]
    else if OpensOne(items[0], place.kind).flow.Raised? then ForetellOne(items[0], place)
    else ForetellOne(items[0], place) + Foretell(items[1..], place)
  }

  function ForetellOne(item: Item, place: Place): map<string, Saying>
    decreases item, 0
  {
    match item
    case Raise(_) => map[]
    case Try(body) => Foretell(body, place)
    case Step(id, node, _, resumedFrom, _, _, body, _) =>
      if node == "" || (resumedFrom.Some? && Blank(resumedFrom.value)) then map[]
      else Foretell(body, Inside(item, place))[id := StepSays(item, place)]
    case Attempt(id, number, tier, _, _, body, _) =>
      if place.kind != StepKind || number < 1 || (tier.Some? && Blank(tier.value)) then map[]
      else Foretell(body, place)[id := AttemptSays(item, place)]
  }

  // ---------------------------------------------------------------- the spans agree

  function Told(text: Option<string>): Option<Value> {
    if text.Some? then Some(Str(text.value)) else None
  }

  predicate Says(s: Span, saying: Saying) {
    && s.parentId == Some(saying.up) && Get(s.attributes, NodeKey) == Some(Str(saying.node))
    && Get(s.attributes, ResumedFromKey) == Told(saying.resumedFrom) && Get(s.attributes, OutcomeKey) == Some(Str(saying.outcome))
    && match saying
       case SaysStep(_, node, _, _) => s.name == StepName(node)
       case SaysAttempt(_, _, _, number, tier, _) =>
         s.name == AttemptName && Get(s.attributes, AttemptKey) == Some(Int(number)) && Get(s.attributes, TierKey) == Told(tier)
  }

  ghost predicate AllSay(m: map<string, Span>, foretold: map<string, Saying>) {
    m.Keys == foretold.Keys && forall x | x in m :: Says(m[x], foretold[x])
  }

  /** The identity a scope hands on carries nothing of a Step's own. */
  predicate Plain(base: Attributes) {
    NodeKey !in base && ResumedFromKey !in base && OutcomeKey !in base && AttemptKey !in base && TierKey !in base
  }

  /** The scope stands where the place says. */
  predicate StandsAt(scope: Scope, place: Place) {
    && scope.kind == place.kind && scope.spanId == place.up && Plain(scope.base)
    && (place.kind == StepKind ==>
          && scope.pause == place.pauses && Get(scope.own, NodeKey) == Some(Str(place.node))
          && Get(scope.own, ResumedFromKey) == Told(place.resumedFrom) && AttemptKey !in scope.own && TierKey !in scope.own)
  }

  lemma InsideStands(item: Item, scope: Scope, place: Place)
    requires item.Step? && StandsAt(scope, place)
    ensures StandsAt(StepScope(item, scope), Inside(item, place))
  {
  }

  lemma StepSpanSays(item: Item, scope: Scope, place: Place, start: nat, flow: Flow, end: nat)
    requires item.Step? && StandsAt(scope, place) && flow == Opens(item.body, StepKind).flow
    ensures Says(StepSpan(item, scope, start, flow, end), StepSays(item, place))
  {
    InsideStands(item, scope, place);
  }

  lemma AttemptSpanSays(item: Item, scope: Scope, place: Place, start: nat, flow: Flow, end: nat)
    requires item.Attempt? && place.kind == StepKind && StandsAt(scope, place) && flow == Opens(item.body, StepKind).flow
    ensures Says(AttemptSpan(item, scope, start, flow, end), AttemptSays(item, place))
  {
  }

  lemma AllSayConcat(a: map<string, Span>, b: map<string, Span>, f: map<string, Saying>, g: map<string, Saying>)
    requires AllSay(a, f) && AllSay(b, g) && forall x | x in a :: x !in b
    ensures AllSay(a + b, f + g)
  {
    forall x | x in a + b
      ensures Says((a + b)[x], (f + g)[x])
    {
      assert x in a <==> x in f;
      assert x in b <==> x in g;
    }
  }

  lemma AllSayOneMore(m: map<string, Span>, f: map<string, Saying>, id: string, s: Span, saying: Saying)
    requires AllSay(m, f) && Says(s, saying)
    ensures AllSay(m[id := s], f[id := saying])
  {
  }

  /**
   Whatever the clock: the spans a stretch of program emits are those its items foretell, each under the
   Step or Run it was opened in, with its own Node and link. A scope left by an exception is recorded as
   a pause exactly when its pause set, its own or inherited from the Step above, has the exception.
   */
  lemma {:induction false} ExecSays(items: seq<Item>, scope: Scope, clock: nat, place: Place)
    requires NoDup(ItemIds(items)) && scope.spanId !in ItemIds(items) && StandsAt(scope, place)
    ensures AllSay(Exec(items, scope, clock).spans, Foretell(items, place))
    decreases items, 1
  {
    if |items| > 0 {
      NoDupParts(OneItemIds(items[0]), ItemIds(items[1..]));
      ExecOneSays(items[0], scope, clock, place);
      ExecutionNames.ExecOneOpens(items[0], scope, clock);
      var first := ExecOne(items[0], scope, clock);
      if first.flow.Normal? {
        ExecSays(items[1..], scope, first.clock, place);
        ExecutionNames.OneDraws(items[0], scope, clock);
        ExecDraws(items[1..], scope, first.clock);
        AllSayConcat(first.spans, Exec(items[1..], scope, first.clock).spans, ForetellOne(items[0], place), Foretell(items[1..], place));
      }
    }
  }

  lemma {:induction false} ExecOneSays(item: Item, scope: Scope, clock: nat, place: Place)
    requires NoDup(OneItemIds(item)) && scope.spanId !in OneItemIds(item) && StandsAt(scope, place)
    ensures AllSay(ExecOne(item, scope, clock).spans, ForetellOne(item, place))
    decreases item, 0
  {
    match item
    case Raise(_) =>
    case Try(body) => ExecSays(body, scope, clock, place);
    case Step(id, _, _, _, _, before, body, after) =>
      if !Refused(item) {
        BodyFresh(item, scope.spanId);
        InsideStands(item, scope, place);
        ExecSays(body, StepScope(item, scope), clock + 1 + before, Inside(item, place));
        StepExecSays(item, scope, clock, place);
      }
    case Attempt(id, _, _, _, before, body, after) =>
      if scope.kind == StepKind && !Refused(item) {
        BodyFresh(item, scope.spanId);
        ExecSays(body, scope, clock + 1 + before, place);
        AttemptExecSays(item, scope, clock, place);
      }
  }

  /** A body leaves by the exception its items foretell. */
  lemma BodyLeavesBy(item: Item, scope: Scope, up: string, clock: nat)
    requires (item.Step? || item.Attempt?) && NoDup(OneItemIds(item)) && up !in OneItemIds(item)
    requires (scope.spanId == item.id || scope.spanId == up) && scope.kind == StepKind && AttemptKey !in scope.base
    ensures Exec(item.body, scope, clock).flow == Opens(item.body, StepKind).flow
  {
    BodyFresh(item, up);
    ExecutionNames.ExecOpens(item.body, scope, clock);
  }

  lemma StepExecSays(item: Item, scope: Scope, clock: nat, place: Place)
    requires item.Step? && !Refused(item) && StandsAt(scope, place) && NoDup(OneItemIds(item)) && scope.spanId !in OneItemIds(item)
    requires AllSay(Exec(item.body, StepScope(item, scope), clock + 1 + item.before).spans, Foretell(item.body, Inside(item, place)))
    ensures AllSay(ExecOne(item, scope, clock).spans, ForetellOne(item, place))
  {
    var inside, at := StepScope(item, scope), clock + 1 + item.before;
    var inner := Exec(item.body, inside, at);
    BodyLeavesBy(item, inside, scope.spanId, at);
    StepSpanSays(item, scope, place, at, inner.flow, inner.clock + 1 + item.after);
    AllSayOneMore(inner.spans, Foretell(item.body, Inside(item, place)), item.id, StepSpan(item, scope, at, inner.flow, inner.clock + 1 + item.after),
                  StepSays(item, place));
  }

  lemma AttemptExecSays(item: Item, scope: Scope, clock: nat, place: Place)
    requires item.Attempt? && !Refused(item) && scope.kind == StepKind && StandsAt(scope, place)
    requires NoDup(OneItemIds(item)) && scope.spanId !in OneItemIds(item)
    requires AllSay(Exec(item.body, scope, clock + 1 + item.before).spans, Foretell(item.body, place))
    ensures AllSay(ExecOne(item, scope, clock).spans, ForetellOne(item, place))
  {
    var at := clock + 1 + item.before;
    var inner := Exec(item.body, scope, at);
    BodyLeavesBy(item, scope, scope.spanId, at);
    AttemptSpanSays(item, scope, place, at, inner.flow, inner.clock + 1 + item.after);
    AllSayOneMore(inner.spans, Foretell(item.body, place), item.id, AttemptSpan(item, scope, at, inner.flow, inner.clock + 1 + item.after),
                  AttemptSays(item, place));
  }

  // ---------------------------------------------------------------- a whole Run

  /** Directly under the Run. */
  function UnderRun(p: Program): Place {
    Place(RunKind, p.id, "", None, {})
  }

  function ForetellResumed(p: Program, n: nat): map<string, Saying>
    requires n <= |p.resumptions|
  {
    if n == 0 then map[] else ForetellResumed(p, n - 1) + Foretell(p.resumptions[n - 1].body, UnderRun(p))
  }

  lemma ScopesAreUnderRun(p: Program)
    ensures StandsAt(RunScope(p), UnderRun(p)) && StandsAt(ResumedScope(p), UnderRun(p))
  {
  }

  lemma UnderRunSays(p: Program, scope: Scope, items: seq<Item>, clock: nat)
    requires NoDup(ItemIds(items)) && p.id !in ItemIds(items) && (scope == RunScope(p) || scope == ResumedScope(p))
    ensures AllSay(Exec(items, scope, clock).spans, Foretell(items, UnderRun(p)))
  {
    ScopesAreUnderRun(p);
    ExecSays(items, scope, clock, UnderRun(p));
  }

  lemma StretchIs(p: Program, n: nat) returns (clock: nat)
    requires 0 < n <= |p.resumptions|
    ensures Stretch(p, n) == Exec(p.resumptions[n - 1].body, ResumedScope(p), clock)
  {
    clock := Resumed(p, n - 1).clock + p.resumptions[n - 1].before;
  }

  lemma StretchSays(p: Program, n: nat)
    requires 0 < n <= |p.resumptions| && NoDup(ItemIds(p.resumptions[n - 1].body)) && p.id !in ItemIds(p.resumptions[n - 1].body)
    ensures AllSay(Stretch(p, n).spans, Foretell(p.resumptions[n - 1].body, UnderRun(p)))
  {
    var clock := StretchIs(p, n);
    UnderRunSays(p, ResumedScope(p), p.resumptions[n - 1].body, clock);
  }

  lemma {:induction false} ResumedSays(p: Program, n: nat)
    requires n <= |p.resumptions| && NoDup(ResumptionIds(p.resumptions[..n])) && p.id !in ResumptionIds(p.resumptions[..n])
    ensures AllSay(Resumed(p, n).spans, ForetellResumed(p, n))
  {
    if n > 0 {
      RoundTrip.ResumptionParts(p.resumptions, n);
      ResumedSays(p, n - 1);
      StretchSays(p, n);
      RoundTrip.ResumedFacts(p, n - 1);
      RoundTrip.StretchOfRun(p, n);
      AllSayConcat(Resumed(p, n - 1).spans, Stretch(p, n).spans, ForetellResumed(p, n - 1), Foretell(p.resumptions[n - 1].body, UnderRun(p)));
    }
  }

  /** The Run's own span: a root, with its identity, its cause and its version. */
  predicate SaysRun(s: Span, p: Program) {
    && s.spanId == p.id && s.traceId == p.traceId && s.parentId.None? && s.name == RunName && s.start == p.openedAt
    && Get(s.attributes, GraphKey) == Some(Str(p.graph)) && Get(s.attributes, RunKey) == Some(Str(p.run))
    && Get(s.attributes, SubjectKey) == Some(Str(p.subject)) && Get(s.attributes, SubjectTypeKey) == Some(Str(p.subjectType))
    && Get(s.attributes, VersionKey) == Some(Str("0.4.0")) && Get(s.attributes, CascadeDepthKey) == Some(Int(p.cascadeDepth))
    && Get(s.attributes, CausedByKey) == Told(p.causedBy)
  }

  lemma RunSpanSays(p: Program)
    ensures SaysRun(RunSpan(p), p)
  {
  }

  lemma WholeSays(p: Program)
    requires NoDup(ProgramIds(p))
    ensures AllSay(RoundTrip.Whole(p).spans, Foretell(p.body, UnderRun(p)) + ForetellResumed(p, |p.resumptions|))
  {
    var n := |p.resumptions|;
    assert p.resumptions[..n] == p.resumptions;
    RoundTrip.ProgramParts(p);
    UnderRunSays(p, RunScope(p), p.body, p.openedAt);
    ResumedSays(p, n);
    RoundTrip.MainFacts(p);
    RoundTrip.ResumedFacts(p, n);
    AllSayConcat(Main(p).spans, Resumed(p, n).spans, Foretell(p.body, UnderRun(p)), ForetellResumed(p, n));
  }

  /** Everything one logical Run emits, pauses and resumptions included, is what its program foretells. */
  lemma EmittedSays(p: Program)
    requires Accepted(p) && NoDup(ProgramIds(p))
    ensures
      var m := Emitted(p);
      && p.id in m && SaysRun(m[p.id], p)
      && AllSay(m - {p.id}, Foretell(p.body, UnderRun(p)) + ForetellResumed(p, |p.resumptions|))
  {
    RoundTrip.EmittedParts(p);
    WholeSays(p);
    RunSpanSays(p);
    WithoutRun(RoundTrip.Whole(p).spans, p.id, RunSpan(p));
  }

  lemma WithoutRun(m: map<string, Span>, id: string, s: Span)
    requires id !in m
    ensures m[id := s] - {id} == m
  {
  }

  /** A child Step without a pause set of its own pauses on its parent's, at any depth. */
  lemma ChildPausesLikeItsParent(parent: Item, child: Item, scope: Scope, clock: nat, e: Exception)
    requires parent.Step? && child.Step? && child.pause.None? && !Refused(child) && NoDup(OneItemIds(child)) && parent.id !in OneItemIds(child)
    requires Plain(scope.base) && Opens(child.body, StepKind).flow == Raised(e)
    ensures
      var spans := ExecOne(child, StepScope(parent, scope), clock).spans;
      && child.id in spans
      && Get(spans[child.id].attributes, OutcomeKey) == Some(Str(if e in StepScope(parent, scope).pause then "awaiting_approval" else "failed"))
      && (parent.pause.Some? ==>
            Get(spans[child.id].attributes, OutcomeKey) == Some(Str(if e in parent.pause.value then "awaiting_approval" else "failed")))
  {
    var above := Place(scope.kind, scope.spanId, "", None, scope.pause);
    var within := StepScope(parent, scope);
    var place := Place(StepKind, parent.id, parent.node, parent.resumedFrom, within.pause);
    ExecOneSays(child, within, clock, place);
  }
}

/**
 The producer and the readers together: what the instrumentation emits is what the archive query
 accepts, and what the viewer rebuilds is what was executed, in whatever order spans arrive.
 */
module RoundTrip {
  import opened Basics
  import opened Spans
  import opened ArchiveQuery
  import opened Viewer
  import opened Execution
  import opened ExecutionFacts
  import opened ExecutionNames
  import TreeBuilder
  import Escalations

  /** The spans below a Run, over its first stretch and every resumption. */
  function Whole(p: Program): Effect {
    Joined(Main(p), Resumed(p, |p.resumptions|))
  }

  function WholeIds(p: Program): seq<string> {
    ItemIds(p.body) + ResumptionIds(p.resumptions)
  }

  /** The archive holds exactly what these programs emitted, and no id was drawn twice. */
  ghost predicate Delivered(spans: SpanMap, programs: seq<Program>) {
    && Keyed(spans)
    && (forall i | 0 <= i < |programs| :: Accepted(programs[i]) && NoDup(ProgramIds(programs[i])) && Holds(spans, Emitted(programs[i])))
    && (forall i, j | 0 <= i < |programs| && 0 <= j < |programs| && i != j :: Apart(programs[i], programs[j]))
    && (forall i, j | 0 <= i < j < |programs| :: programs[i].openedAt < programs[j].openedAt)
    && (forall x | x in spans :: exists i | 0 <= i < |programs| :: x in Emitted(programs[i]))
  }

  ghost predicate Apart(p: Program, q: Program) {
    forall x | x in ProgramIds(p) :: x !in ProgramIds(q)
  }

  // ---------------------------------------------------------------- one logical Run

  lemma ProgramParts(p: Program)
    requires NoDup(ProgramIds(p))
    ensures NoDup(WholeIds(p)) && p.id !in WholeIds(p)
    ensures NoDup(ItemIds(p.body)) && NoDup(ResumptionIds(p.resumptions))
    ensures forall x | x in ItemIds(p.body) :: x !in ResumptionIds(p.resumptions)
    ensures forall x | x in WholeIds(p) :: x in ProgramIds(p)
    ensures p.id in ProgramIds(p)
    ensures forall x | x in ProgramIds(p) :: x == p.id || x in WholeIds(p)
  {
    assert ProgramIds(p) == [p.id] + WholeIds(p);
    NoDupParts([p.id], WholeIds(p));
    NoDupParts(ItemIds(p.body), ResumptionIds(p.resumptions));
  }

  ghost predicate Separate(a: seq<string>, b: seq<string>) {
    forall x | x in a :: x !in b
  }

  lemma ResumptionParts(rs: seq<Resumption>, n: nat)
    requires 0 < n <= |rs| && NoDup(ResumptionIds(rs[..n]))
    ensures rs[..n][..n - 1] == rs[..n - 1]
    ensures ResumptionIds(rs[..n]) == ResumptionIds(rs[..n - 1]) + ItemIds(rs[n - 1].body)
    ensures NoDup(ResumptionIds(rs[..n - 1])) && NoDup(ItemIds(rs[n - 1].body))
    ensures Separate(ResumptionIds(rs[..n - 1]), ItemIds(rs[n - 1].body))
  {
    assert rs[..n][..n - 1] == rs[..n - 1];
    NoDupParts(ResumptionIds(rs[..n - 1]), ItemIds(rs[n - 1].body));
  }

  lemma FactsEarlier(e: Effect, ids: seq<string>, up: string, from: nat, earlier: nat)
    requires Facts(e, ids, up, from) && earlier <= from
    ensures Facts(e, ids, up, earlier)
  {
  }

  lemma StretchFacts(items: seq<Item>, scope: Scope, clock: nat, earlier: nat)
    requires NoDup(ItemIds(items)) && scope.spanId !in ItemIds(items) && AttemptKey !in scope.base
    requires earlier <= clock
    ensures Facts(Exec(items, scope, clock), ItemIds(items), scope.spanId, earlier)
  {
    ExecFacts(items, scope, clock);
    FactsEarlier(Exec(items, scope, clock), ItemIds(items), scope.spanId, clock, earlier);
  }

  lemma StretchOfRun(p: Program, n: nat)
    requires 0 < n <= |p.resumptions| && NoDup(ItemIds(p.resumptions[n - 1].body)) && p.id !in ItemIds(p.resumptions[n - 1].body)
    ensures Facts(Stretch(p, n), ItemIds(p.resumptions[n - 1].body), p.id, Resumed(p, n - 1).clock)
  {
    StretchFacts(p.resumptions[n - 1].body, ResumedScope(p), Resumed(p, n - 1).clock + p.resumptions[n - 1].before, Resumed(p, n - 1).clock);
  }

  lemma JoinedFacts(e: Effect, f: Effect, ids: seq<string>, jds: seq<string>, up: string, from: nat)
    requires Facts(e, ids, up, from) && Facts(f, jds, up, e.clock)
    requires forall x | x in ids :: x !in jds
    ensures Facts(Joined(e, f), ids + jds, up, from)
  {
    FactsConcat(e, f, ids, jds, up, from, Normal);
  }

  lemma {:induction false} ResumedFacts(p: Program, n: nat)
    requires n <= |p.resumptions| && NoDup(ResumptionIds(p.resumptions[..n])) && p.id !in ResumptionIds(p.resumptions[..n])
    ensures Facts(Resumed(p, n), ResumptionIds(p.resumptions[..n]), p.id, Main(p).clock + 1 + p.after)
  {
    if n > 0 {
      ResumptionParts(p.resumptions, n);
      ResumedFacts(p, n - 1);
      StretchOfRun(p, n);
      JoinedFacts(Resumed(p, n - 1), Stretch(p, n), ResumptionIds(p.resumptions[..n - 1]), ItemIds(p.resumptions[n - 1].body), p.id,
                  Main(p).clock + 1 + p.after);
    } else {
      NothingFacts(p);
    }
  }

  lemma NothingFacts(p: Program)
    ensures Facts(Resumed(p, 0), ResumptionIds(p.resumptions[..0]), p.id, Main(p).clock + 1 + p.after)
  {
  }

  lemma MainFacts(p: Program)
    requires NoDup(ItemIds(p.body)) && p.id !in ItemIds(p.body)
    ensures Facts(Main(p), ItemIds(p.body), p.id, p.openedAt)
  {
    ExecFacts(p.body, RunScope(p), p.openedAt);
  }

  lemma WholeFacts(p: Program)
    requires NoDup(ProgramIds(p))
    ensures Facts(Whole(p), WholeIds(p), p.id, p.openedAt)
  {
    ProgramParts(p);
    MainFacts(p);
    var n := |p.resumptions|;
    assert p.resumptions[..n] == p.resumptions;
    ResumedFacts(p, n);
    FactsEarlier(Resumed(p, n), ResumptionIds(p.resumptions), p.id, Main(p).clock + 1 + p.after, Main(p).clock);
    JoinedFacts(Main(p), Resumed(p, n), ItemIds(p.body), ResumptionIds(p.resumptions), p.id, p.openedAt);
  }

  lemma EmittedParts(p: Program)
    requires Accepted(p) && NoDup(ProgramIds(p))
    ensures Emitted(p) == Whole(p).spans[p.id := RunSpan(p)] && p.id !in Whole(p).spans
    ensures forall x | x in Emitted(p) :: x in ProgramIds(p)
    ensures forall x | x in Emitted(p) && x != p.id :: Emitted(p)[x].parentId.Some? && Emitted(p)[x].parentId.value in ProgramIds(p)
    ensures HasRole(RunSpan(p), RunKind)
    ensures forall x | x in Emitted(p) :: HasRole(Emitted(p)[x], RunKind) <==> x == p.id
  {
    ProgramParts(p);
    WholeFacts(p);
    EmittedFacts(p, Whole(p), WholeIds(p));
  }

  lemma EmittedFacts(p: Program, e: Effect, ids: seq<string>)
    requires Facts(e, ids, p.id, p.openedAt) && p.id !in ids
    ensures p.id !in e.spans && (forall x | x in e.spans :: x in ids)
    ensures forall x | x in e.spans :: e.spans[x].parentId.Some? && (e.spans[x].parentId.value == p.id || e.spans[x].parentId.value in ids)
    ensures forall x | x in e.spans :: !HasRole(e.spans[x], RunKind)
    ensures HasRole(RunSpan(p), RunKind)
  {
  }

  // ---------------------------------------------------------------- the executed tree

  lemma DeliveredOwns(spans: SpanMap, programs: seq<Program>, i: nat)
    requires Delivered(spans, programs) && i < |programs|
    ensures Owns(spans, Emitted(programs[i]), ProgramIds(programs[i]))
  {
    var p := programs[i];
    forall x | x in spans && spans[x].span.parentId.Some? && spans[x].span.parentId.value in ProgramIds(p)
      ensures x in Emitted(p)
    {
      var j :| 0 <= j < |programs| && x in Emitted(programs[j]);
      EmittedParts(programs[j]);
      assert spans[x].span == Emitted(programs[j])[x];
      assert i != j ==> Apart(p, programs[j]);
    }
  }

  lemma WholeOwns(spans: SpanMap, p: Program)
    requires Accepted(p) && NoDup(ProgramIds(p)) && Holds(spans, Emitted(p)) && Owns(spans, Emitted(p), ProgramIds(p))
    ensures Holds(spans, Whole(p).spans) && Owns(spans, Whole(p).spans, ProgramIds(p))
  {
    EmittedParts(p);
    HoldsInside(spans, Emitted(p), Whole(p).spans, p.id);
    assert spans[p.id].span == RunSpan(p);
  }

  lemma OwnsFewer(spans: SpanMap, m: map<string, Span>, ids: seq<string>, jds: seq<string>)
    requires Owns(spans, m, ids) && forall x | x in jds :: x in ids
    ensures Owns(spans, m, jds)
  {
  }

  lemma {:induction false} ResumedTrees(spans: SpanMap, p: Program, n: nat)
    requires n <= |p.resumptions| && NoDup(ResumptionIds(p.resumptions[..n])) && p.id !in ResumptionIds(p.resumptions[..n])
    requires Holds(spans, Resumed(p, n).spans) && Owns(spans, Resumed(p, n).spans, ResumptionIds(p.resumptions[..n]))
    ensures AllTrees(spans, Resumed(p, n).children)
  {
    if n > 0 {
      ResumptionParts(p.resumptions, n);
      ResumedOwns(spans, p, n);
      ResumedTrees(spans, p, n - 1);
      StretchTrees(spans, p, n);
    }
  }

  lemma StretchTrees(spans: SpanMap, p: Program, n: nat)
    requires 0 < n <= |p.resumptions| && NoDup(ItemIds(p.resumptions[n - 1].body)) && p.id !in ItemIds(p.resumptions[n - 1].body)
    requires Holds(spans, Stretch(p, n).spans) && Owns(spans, Stretch(p, n).spans, ItemIds(p.resumptions[n - 1].body))
    ensures AllTrees(spans, Stretch(p, n).children)
  {
    ExecTrees(spans, p.resumptions[n - 1].body, ResumedScope(p), Resumed(p, n - 1).clock + p.resumptions[n - 1].before);
  }

  lemma ResumedOwns(spans: SpanMap, p: Program, n: nat)
    requires 0 < n <= |p.resumptions| && NoDup(ResumptionIds(p.resumptions[..n])) && p.id !in ResumptionIds(p.resumptions[..n])
    requires Holds(spans, Resumed(p, n).spans) && Owns(spans, Resumed(p, n).spans, ResumptionIds(p.resumptions[..n]))
    ensures Holds(spans, Resumed(p, n - 1).spans) && Owns(spans, Resumed(p, n - 1).spans, ResumptionIds(p.resumptions[..n - 1]))
    ensures Holds(spans, Stretch(p, n).spans) && Owns(spans, Stretch(p, n).spans, ItemIds(p.resumptions[n - 1].body))
  {
    ResumptionParts(p.resumptions, n);
    ResumedFacts(p, n - 1);
    StretchOfRun(p, n);
    OwnsFirst(spans, Resumed(p, n - 1), Stretch(p, n), ResumptionIds(p.resumptions[..n - 1]), ItemIds(p.resumptions[n - 1].body), p.id,
              Main(p).clock + 1 + p.after, Resumed(p, n - 1).clock);
  }

  lemma WholeSplits(spans: SpanMap, p: Program)
    requires NoDup(ProgramIds(p)) && Holds(spans, Whole(p).spans) && Owns(spans, Whole(p).spans, ProgramIds(p))
    ensures Holds(spans, Main(p).spans) && Owns(spans, Main(p).spans, ItemIds(p.body))
    ensures
      var later := Resumed(p, |p.resumptions|);
      Holds(spans, later.spans) && Owns(spans, later.spans, ResumptionIds(p.resumptions))
  {
    var n := |p.resumptions|;
    assert p.resumptions[..n] == p.resumptions;
    ProgramParts(p);
    OwnsFewer(spans, Whole(p).spans, ProgramIds(p), WholeIds(p));
    MainFacts(p);
    ResumedFacts(p, n);
    OwnsFirst(spans, Main(p), Resumed(p, n), ItemIds(p.body), ResumptionIds(p.resumptions), p.id, p.openedAt, Main(p).clock + 1 + p.after);
  }

  lemma WholeTrees(spans: SpanMap, p: Program)
    requires NoDup(ProgramIds(p)) && Holds(spans, Whole(p).spans) && Owns(spans, Whole(p).spans, ProgramIds(p))
    ensures AllTrees(spans, Executed(p).steps)
  {
    var n := |p.resumptions|;
    assert p.resumptions[..n] == p.resumptions;
    ProgramParts(p);
    WholeSplits(spans, p);
    ExecTrees(spans, p.body, RunScope(p), p.openedAt);
    ResumedTrees(spans, p, n);
  }

  lemma ExecutedIsRunTree(spans: SpanMap, p: Program)
    requires Accepted(p) && NoDup(ProgramIds(p)) && Holds(spans, Emitted(p)) && Owns(spans, Emitted(p), ProgramIds(p))
    ensures IsRunTree(spans, Executed(p)) && AllTrees(spans, Executed(p).steps)
    ensures StartsDiffer(spans, Ids(Executed(p).steps))
  {
    WholeOwns(spans, p);
    WholeTrees(spans, p);
    WholeFacts(p);
    ProgramParts(p);
    OwnsFewer(spans, Whole(p).spans, ProgramIds(p), [p.id]);
    ListsFromEmitted(spans, Whole(p).spans, Ids(Whole(p).children), StepKind, p.id);
  }

  function AllExecuted(programs: seq<Program>): (trees: seq<RunTree>)
    ensures |trees| == |programs| && forall i | 0 <= i < |trees| :: trees[i] == Executed(programs[i])
  {
    seq(|programs|, i requires 0 <= i < |programs| => Executed(programs[i]))
  }

  lemma RunOfProgram(spans: SpanMap, programs: seq<Program>, i: nat)
    requires Delivered(spans, programs) && i < |programs|
    ensures IsKind(spans, programs[i].id, RunKind) && StartOf(spans, programs[i].id) == programs[i].openedAt
  {
    EmittedParts(programs[i]);
    assert programs[i].id in Emitted(programs[i]);
  }

  ghost predicate ListsPrograms(ids: seq<string>, programs: seq<Program>) {
    |ids| == |programs| && forall i | 0 <= i < |ids| :: ids[i] == programs[i].id
  }

  lemma ListedIsRun(spans: SpanMap, programs: seq<Program>, ids: seq<string>, x: string)
    requires Delivered(spans, programs) && ListsPrograms(ids, programs) && x in ids
    ensures IsKind(spans, x, RunKind)
  {
    var i :| 0 <= i < |ids| && ids[i] == x;
    RunOfProgram(spans, programs, i);
  }

  lemma RunIsListed(spans: SpanMap, programs: seq<Program>, ids: seq<string>, x: string)
    requires Delivered(spans, programs) && ListsPrograms(ids, programs) && IsKind(spans, x, RunKind)
    ensures x in ids
  {
    var i := RunIsProgram(spans, programs, x);
    assert x == ids[i];
  }

  lemma RunsOfPrograms(spans: SpanMap, programs: seq<Program>, ids: seq<string>)
    requires Delivered(spans, programs) && ListsPrograms(ids, programs)
    ensures forall x :: x in ids <==> IsKind(spans, x, RunKind)
    ensures forall i | 0 <= i < |ids| :: StartOf(spans, ids[i]) == programs[i].openedAt
  {
    forall i | 0 <= i < |ids|
      ensures StartOf(spans, ids[i]) == programs[i].openedAt
    {
      RunOfProgram(spans, programs, i);
    }
    forall x
      ensures x in ids <==> IsKind(spans, x, RunKind)
    {
      if x in ids { ListedIsRun(spans, programs, ids, x); }
      if IsKind(spans, x, RunKind) { RunIsListed(spans, programs, ids, x); }
    }
  }

  lemma RunIsProgram(spans: SpanMap, programs: seq<Program>, x: string) returns (i: nat)
    requires Delivered(spans, programs) && IsKind(spans, x, RunKind)
    ensures i < |programs| && x == programs[i].id
  {
    i :| 0 <= i < |programs| && x in Emitted(programs[i]);
    var p := programs[i];
    assert Holds(spans, Emitted(p));
    RunIsRoot(p, x);
  }

  lemma RunIsRoot(p: Program, x: string)
    requires Accepted(p) && NoDup(ProgramIds(p)) && x in Emitted(p) && HasRole(Emitted(p)[x], RunKind)
    ensures x == p.id
  {
    EmittedParts(p);
  }

  lemma ExecutedRuns(spans: SpanMap, programs: seq<Program>)
    requires Delivered(spans, programs)
    ensures ListsRuns(spans, RunIds(AllExecuted(programs))) && StartsDiffer(spans, RunIds(AllExecuted(programs)))
  {
    var ids := RunIds(AllExecuted(programs));
    RunsOfPrograms(spans, programs, ids);
    StartsIncrease(spans, programs, ids);
  }

  lemma StartsIncrease(spans: SpanMap, programs: seq<Program>, ids: seq<string>)
    requires |ids| == |programs| && forall i | 0 <= i < |ids| :: StartOf(spans, ids[i]) == programs[i].openedAt
    requires forall i, j | 0 <= i < j < |programs| :: programs[i].openedAt < programs[j].openedAt
    ensures NoDup(ids) && ByStart(spans, ids) && StartsDiffer(spans, ids)
  {
  }

  lemma ExecutedTreesAt(spans: SpanMap, programs: seq<Program>, i: nat)
    requires Delivered(spans, programs) && i < |programs|
    ensures IsRunTree(spans, Executed(programs[i])) && AllTrees(spans, Executed(programs[i]).steps)
    ensures StartsDiffer(spans, Ids(Executed(programs[i]).steps))
  {
    DeliveredOwns(spans, programs, i);
    ExecutedIsRunTree(spans, programs[i]);
  }

  /** The only forest recorded in the archive is the one that was executed. */
  lemma ForestIsExecuted(spans: SpanMap, programs: seq<Program>, trees: seq<RunTree>)
    requires Delivered(spans, programs)
    ensures IsForest(spans, trees) <==> trees == AllExecuted(programs)
  {
    var executed := AllExecuted(programs);
    ExecutedRuns(spans, programs);
    forall i | 0 <= i < |executed|
      ensures IsRunTree(spans, executed[i]) && AllTrees(spans, executed[i].steps) && StartsDiffer(spans, Ids(executed[i].steps))
    {
      ExecutedTreesAt(spans, programs, i);
    }
    assert ForestStartsDiffer(spans, executed);
    if IsForest(spans, trees) {
      ForestUnique(spans, executed, trees);
    }
  }

  // ---------------------------------------------------------------- acceptance

  /** The subject type and the Node of every emitted Step are not blank. */
  predicate EmittedNamed(p: Program) {
    && !Blank(p.subjectType)
    && (forall x | x in Emitted(p) && Emitted(p)[x].name.StepName? :: !Blank(Emitted(p)[x].name.rest))
  }

  lemma {:induction false} ResumedOpens(p: Program, n: nat)
    requires n <= |p.resumptions| && NoDup(ResumptionIds(p.resumptions[..n])) && p.id !in ResumptionIds(p.resumptions[..n])
    ensures StepNames(Resumed(p, n).spans) == Elements(ResumptionNodes(p.resumptions[..n]))
  {
    if n == 0 {
      NothingForetold(Normal, 0);
    } else {
      ResumptionParts(p.resumptions, n);
      ResumedOpens(p, n - 1);
      StretchOpens(p, n);
      ResumedFacts(p, n - 1);
      StretchOfRun(p, n);
      NamesConcat(Resumed(p, n - 1).spans, Stretch(p, n).spans);
      NodesOn(p.resumptions, n);
    }
  }

  lemma StretchOpens(p: Program, n: nat)
    requires 0 < n <= |p.resumptions| && NoDup(ItemIds(p.resumptions[n - 1].body)) && p.id !in ItemIds(p.resumptions[n - 1].body)
    ensures StepNames(Stretch(p, n).spans) == Elements(Opens(p.resumptions[n - 1].body, RunKind).nodes)
  {
    ExecOpens(p.resumptions[n - 1].body, ResumedScope(p), Resumed(p, n - 1).clock + p.resumptions[n - 1].before);
  }

  lemma NodesOn(rs: seq<Resumption>, n: nat)
    requires 0 < n <= |rs|
    ensures Elements(ResumptionNodes(rs[..n])) == Elements(ResumptionNodes(rs[..n - 1])) + Elements(Opens(rs[n - 1].body, RunKind).nodes)
  {
    assert rs[..n][..n - 1] == rs[..n - 1];
  }

  lemma WholeOpens(p: Program)
    requires NoDup(ProgramIds(p))
    ensures StepNames(Whole(p).spans) == Elements(ProgramNodes(p))
  {
    var n := |p.resumptions|;
    assert p.resumptions[..n] == p.resumptions;
    ProgramParts(p);
    ExecOpens(p.body, RunScope(p), p.openedAt);
    ResumedOpens(p, n);
    MainFacts(p);
    ResumedFacts(p, n);
    NamesConcat(Main(p).spans, Resumed(p, n).spans);
    ElementsConcat(Opens(p.body, RunKind).nodes, ResumptionNodes(p.resumptions));
  }

  lemma ElementsConcat(a: seq<string>, b: seq<string>)
    ensures Elements(a + b) == Elements(a) + Elements(b)
  {
  }

  /** So what is emitted is named exactly when what the program opens is. */
  lemma SpokenIsNamed(p: Program)
    requires Accepted(p) && NoDup(ProgramIds(p))
    ensures EmittedNamed(p) <==> Spoken(p)
  {
    EmittedParts(p);
    WholeOpens(p);
    NamesOneMore(Whole(p).spans, p.id, RunSpan(p));
    assert StepNames(Emitted(p)) == Elements(ProgramNodes(p));
    NamedOrNot(Emitted(p));
  }

  lemma NamedOrNot(m: map<string, Span>)
    ensures (forall name | name in StepNames(m) :: !Blank(name)) <==> (forall x | x in m && m[x].name.StepName? :: !Blank(m[x].name.rest))
  {
    forall x | x in m && m[x].name.StepName?
      ensures m[x].name.rest in StepNames(m)
    {
    }
  }

  /** A Step or Attempt span carries the identity of its Run, and a Step its own Node. */
  predicate Carries(s: Span, identity: Attributes) {
    && SameIdentifiers(s.attributes, identity)
    && (s.name.StepName? || s.name.AttemptName?)
    && (s.name.StepName? ==> HasRole(s, StepKind) && Get(s.attributes, NodeKey) == Some(Str(s.name.rest)))
  }

  ghost predicate AllCarry(m: map<string, Span>, identity: Attributes) {
    forall x | x in m :: Carries(m[x], identity)
  }

  predicate Identifies(scope: Scope, identity: Attributes) {
    && AttemptKey !in scope.base
    && SameIdentifiers(scope.base, identity)
    && (scope.kind == StepKind ==> SameIdentifiers(scope.own, identity))
  }

  lemma StepCarries(item: Item, scope: Scope, start: nat, flow: Flow, end: nat, identity: Attributes)
    requires item.Step? && Identifies(scope, identity)
    ensures Carries(StepSpan(item, scope, start, flow, end), identity) && Identifies(StepScope(item, scope), identity)
  {
  }

  lemma AttemptCarries(item: Item, scope: Scope, start: nat, flow: Flow, end: nat, identity: Attributes)
    requires item.Attempt? && Identifies(scope, identity) && scope.kind == StepKind
    ensures Carries(AttemptSpan(item, scope, start, flow, end), identity)
  {
  }

  lemma {:induction false} ExecCarries(items: seq<Item>, scope: Scope, clock: nat, identity: Attributes)
    requires Identifies(scope, identity)
    ensures AllCarry(Exec(items, scope, clock).spans, identity)
    decreases items, 1
  {
    if |items| > 0 {
      ExecOneCarries(items[0], scope, clock, identity);
      ExecCarries(items[1..], scope, ExecOne(items[0], scope, clock).clock, identity);
    }
  }

  lemma {:induction false} ExecOneCarries(item: Item, scope: Scope, clock: nat, identity: Attributes)
    requires Identifies(scope, identity)
    ensures AllCarry(ExecOne(item, scope, clock).spans, identity)
    decreases item, 0
  {
    match item
    case Raise(_) =>
    case Try(body) =>
      ExecCarries(body, scope, clock, identity);
    case Step(_, _, _, _, _, before, body, after) =>
      StepScopeIdentifies(item, scope, identity);
      ExecCarries(body, StepScope(item, scope), clock + 1 + before, identity);
      StepCloses(item, scope, clock, identity);
    case Attempt(_, _, _, _, before, body, after) =>
      ExecCarries(body, scope, clock + 1 + before, identity);
      AttemptCloses(item, scope, clock, identity);
  }

  lemma StepScopeIdentifies(item: Item, scope: Scope, identity: Attributes)
    requires item.Step? && Identifies(scope, identity)
    ensures Identifies(StepScope(item, scope), identity)
  {
  }

  lemma StepCloses(item: Item, scope: Scope, clock: nat, identity: Attributes)
    requires item.Step? && Identifies(scope, identity)
    requires AllCarry(Exec(item.body, StepScope(item, scope), clock + 1 + item.before).spans, identity)
    ensures AllCarry(ExecOne(item, scope, clock).spans, identity)
  {
    var inner := Exec(item.body, StepScope(item, scope), clock + 1 + item.before);
    StepCarries(item, scope, clock + 1 + item.before, inner.flow, inner.clock + 1 + item.after, identity);
    AllCarryOneMore(inner.spans, StepSpan(item, scope, clock + 1 + item.before, inner.flow, inner.clock + 1 + item.after), identity);
  }

  lemma AttemptCloses(item: Item, scope: Scope, clock: nat, identity: Attributes)
    requires item.Attempt? && Identifies(scope, identity)
    requires AllCarry(Exec(item.body, scope, clock + 1 + item.before).spans, identity)
    ensures AllCarry(ExecOne(item, scope, clock).spans, identity)
  {
    if scope.kind == StepKind {
      var inner := Exec(item.body, scope, clock + 1 + item.before);
      AttemptCarries(item, scope, clock + 1 + item.before, inner.flow, inner.clock + 1 + item.after, identity);
      AllCarryOneMore(inner.spans, AttemptSpan(item, scope, clock + 1 + item.before, inner.flow, inner.clock + 1 + item.after), identity);
    }
  }

  lemma AllCarryOneMore(m: map<string, Span>, s: Span, identity: Attributes)
    requires AllCarry(m, identity) && Carries(s, identity)
    ensures AllCarry(m[s.spanId := s], identity)
  {
  }

  lemma StretchCarries(p: Program, n: nat)
    requires 0 < n <= |p.resumptions|
    ensures AllCarry(Stretch(p, n).spans, Identity(p))
  {
    ExecCarries(p.resumptions[n - 1].body, ResumedScope(p), Resumed(p, n - 1).clock + p.resumptions[n - 1].before, Identity(p));
  }

  lemma {:induction false} ResumedCarries(p: Program, n: nat)
    requires n <= |p.resumptions|
    ensures AllCarry(Resumed(p, n).spans, Identity(p))
  {
    if n > 0 {
      ResumedCarries(p, n - 1);
      StretchCarries(p, n);
    }
  }

  lemma WholeCarries(p: Program)
    ensures AllCarry(Whole(p).spans, Identity(p))
  {
    ExecCarries(p.body, RunScope(p), p.openedAt, Identity(p));
    ResumedCarries(p, |p.resumptions|);
  }

  lemma IdentityNonblank(s: Span, p: Program)
    requires Accepted(p) && SameIdentifiers(s.attributes, Identity(p))
    ensures Identified(s) <==> !Blank(p.subjectType)
  {
    assert Get(s.attributes, SubjectTypeKey) == Get(Identity(p), SubjectTypeKey) == Some(Str(p.subjectType));
    assert Get(s.attributes, GraphKey) == Get(Identity(p), GraphKey) == Some(Str(p.graph));
    assert Get(s.attributes, RunKey) == Get(Identity(p), RunKey) == Some(Str(p.run));
    assert Get(s.attributes, SubjectKey) == Get(Identity(p), SubjectKey) == Some(Str(p.subject));
  }

  lemma RunIsLocal(spans: SpanMap, p: Program)
    requires Accepted(p)
    ensures HasRole(RunSpan(p), RunKind) && LegalRun(RunSpan(p)) && SameIdentifiers(RunSpan(p).attributes, Identity(p))
    ensures LocalSpan(spans, RunSpan(p)) <==> !Blank(p.subjectType)
  {
    IdentityNonblank(RunSpan(p), p);
    assert SUPPORTED_RUN_VERSIONS[2] == SEMCONV_VERSION;
  }

  lemma RunAnchors(spans: SpanMap, p: Program)
    requires Accepted(p) && p.id in spans && spans[p.id].span == RunSpan(p)
    ensures Anchored(spans, RunScope(p)) && Anchored(spans, ResumedScope(p))
  {
    RunIsLocal(spans, p);
    assert Chain(spans, [p.id]);
    assert LeadsToCurrentRun(spans, p.id);
  }

  lemma {:induction false} ResumedLocal(spans: SpanMap, p: Program, n: nat)
    requires n <= |p.resumptions| && NoDup(ResumptionIds(p.resumptions[..n])) && p.id !in ResumptionIds(p.resumptions[..n])
    requires Anchored(spans, ResumedScope(p)) && Holds(spans, Resumed(p, n).spans)
    ensures Resumed(p, n).spans.Keys <= LocalIds(spans)
  {
    if n > 0 {
      ResumptionParts(p.resumptions, n);
      ResumedHolds(spans, p, n);
      ResumedLocal(spans, p, n - 1);
      StretchLocal(spans, p, n);
    }
  }

  lemma StretchLocal(spans: SpanMap, p: Program, n: nat)
    requires 0 < n <= |p.resumptions| && NoDup(ItemIds(p.resumptions[n - 1].body)) && p.id !in ItemIds(p.resumptions[n - 1].body)
    requires Anchored(spans, ResumedScope(p)) && Holds(spans, Stretch(p, n).spans)
    ensures Stretch(p, n).spans.Keys <= LocalIds(spans)
  {
    ExecIsLocal(spans, p.resumptions[n - 1].body, ResumedScope(p), Resumed(p, n - 1).clock + p.resumptions[n - 1].before);
  }

  lemma ResumedHolds(spans: SpanMap, p: Program, n: nat)
    requires 0 < n <= |p.resumptions| && NoDup(ResumptionIds(p.resumptions[..n])) && p.id !in ResumptionIds(p.resumptions[..n])
    requires Holds(spans, Resumed(p, n).spans)
    ensures Holds(spans, Resumed(p, n - 1).spans) && Holds(spans, Stretch(p, n).spans)
  {
    ResumptionParts(p.resumptions, n);
    ResumedFacts(p, n - 1);
    StretchOfRun(p, n);
    HoldsParts(spans, Resumed(p, n - 1), Stretch(p, n), ResumptionIds(p.resumptions[..n - 1]), ItemIds(p.resumptions[n - 1].body), p.id,
               Main(p).clock + 1 + p.after, Resumed(p, n - 1).clock);
  }

  lemma HoldsParts(spans: SpanMap, e: Effect, f: Effect, ids: seq<string>, jds: seq<string>, up: string, from: nat, mid: nat)
    requires Facts(e, ids, up, from) && Facts(f, jds, up, mid) && (forall x | x in ids :: x !in jds)
    requires Holds(spans, e.spans + f.spans)
    ensures Holds(spans, e.spans) && Holds(spans, f.spans)
  {
    assert forall x | x in e.spans :: x !in f.spans && (e.spans + f.spans)[x] == e.spans[x];
    assert forall x | x in f.spans :: (e.spans + f.spans)[x] == f.spans[x];
  }

  lemma WholeLocal(spans: SpanMap, p: Program)
    requires Accepted(p) && NoDup(ProgramIds(p)) && Holds(spans, Emitted(p))
    ensures Whole(p).spans.Keys <= LocalIds(spans)
  {
    var n := |p.resumptions|;
    assert p.resumptions[..n] == p.resumptions;
    ProgramParts(p);
    EmittedParts(p);
    HoldsInside(spans, Emitted(p), Whole(p).spans, p.id);
    assert p.id in Emitted(p);
    RunAnchors(spans, p);
    MainFacts(p);
    ResumedFacts(p, n);
    HoldsParts(spans, Main(p), Resumed(p, n), ItemIds(p.body), ResumptionIds(p.resumptions), p.id, p.openedAt, Main(p).clock + 1 + p.after);
    ExecIsLocal(spans, p.body, RunScope(p), p.openedAt);
    ResumedLocal(spans, p, n);
  }

  /** The recorded spans with an id of this program are the ones it emitted. */
  ghost predicate Owned(spans: SpanMap, p: Program) {
    forall x | x in spans && x in ProgramIds(p) :: x in Emitted(p)
  }

  lemma DeliveredOwned(spans: SpanMap, programs: seq<Program>, i: nat)
    requires Delivered(spans, programs) && i < |programs|
    ensures Owned(spans, programs[i])
  {
    forall x | x in spans && x in ProgramIds(programs[i])
      ensures x in Emitted(programs[i])
    {
      var j :| 0 <= j < |programs| && x in Emitted(programs[j]);
      EmittedParts(programs[j]);
      assert i != j ==> Apart(programs[i], programs[j]);
    }
  }

  ghost predicate Ready(spans: SpanMap, p: Program) {
    Accepted(p) && NoDup(ProgramIds(p)) && Holds(spans, Emitted(p)) && Owned(spans, p)
  }

  lemma AttemptNode(spans: SpanMap, p: Program, x: string)
    requires Ready(spans, p) && EmittedNamed(p)
    requires x in Whole(p).spans && HasRole(Whole(p).spans[x], AttemptKind) && NodeOfStep(spans, Whole(p).spans[x])
    ensures Nonblank(Whole(p).spans[x].attributes, NodeKey)
  {
    var s := Whole(p).spans[x];
    var up := s.parentId.value;
    EmittedParts(p);
    assert s == Emitted(p)[x];
    assert up in Emitted(p);
    StepNode(spans, p, up);
  }

  lemma StepNode(spans: SpanMap, p: Program, x: string)
    requires Ready(spans, p) && EmittedNamed(p) && x in Emitted(p) && IsKind(spans, x, StepKind)
    ensures Nonblank(spans[x].span.attributes, NodeKey)
  {
    EmittedParts(p);
    WholeCarries(p);
    assert x in Whole(p).spans && Carries(Whole(p).spans[x], Identity(p));
    var s := Emitted(p)[x];
    assert s == Whole(p).spans[x] == spans[x].span;
    assert !s.name.AttemptName?;
  }

  /** One span below a Run passes its check as soon as its Run and its Node are named. */
  lemma SpanAccepted(spans: SpanMap, p: Program, x: string)
    requires Ready(spans, p) && EmittedNamed(p) && x in Whole(p).spans
    ensures LocalSpan(spans, Whole(p).spans[x])
  {
    EmittedParts(p);
    WholeLocal(spans, p);
    WholeCarries(p);
    var s := Whole(p).spans[x];
    assert x in LocalIds(spans) && spans[x].span == s == Emitted(p)[x];
    assert Carries(s, Identity(p));
    IdentityNonblank(s, p);
    if s.name.AttemptName? {
      AttemptNode(spans, p, x);
    } else {
      StepNode(spans, p, x);
    }
  }

  lemma NamedIsLocal(spans: SpanMap, p: Program, x: string)
    requires Ready(spans, p) && EmittedNamed(p) && x in Emitted(p)
    ensures LocalSpan(spans, spans[x].span)
  {
    EmittedParts(p);
    if x == p.id {
      RunIsLocal(spans, p);
    } else {
      SpanAccepted(spans, p, x);
      assert spans[x].span == Whole(p).spans[x];
    }
  }

  lemma LocalStepIsNamed(spans: SpanMap, s: Span)
    requires LocalSpan(spans, s) && HasRole(s, StepKind)
    ensures Nonblank(s.attributes, NodeKey)
  {
  }

  lemma LocalIsNamed(spans: SpanMap, p: Program)
    requires Ready(spans, p) && AllLocal(spans)
    ensures EmittedNamed(p)
  {
    EmittedParts(p);
    WholeCarries(p);
    assert p.id in Emitted(p) && spans[p.id].span == RunSpan(p);
    RunIsLocal(spans, p);
    assert LocalSpan(spans, spans[p.id].span);
    forall x | x in Emitted(p) && Emitted(p)[x].name.StepName?
      ensures !Blank(Emitted(p)[x].name.rest)
    {
      var s := Emitted(p)[x];
      assert x != p.id && s == Whole(p).spans[x] && Carries(s, Identity(p));
      assert LocalSpan(spans, spans[x].span) && spans[x].span == s;
      LocalStepIsNamed(spans, s);
    }
  }

  /** What the programs emitted is accepted exactly when every Run and every opened Step was named. */
  lemma EmittedIsLegal(spans: SpanMap, programs: seq<Program>)
    requires Delivered(spans, programs)
    ensures Legal(spans) <==> forall i | 0 <= i < |programs| :: Spoken(programs[i])
  {
    LocalIsLegal(spans);
    forall i | 0 <= i < |programs|
      ensures Ready(spans, programs[i])
    {
      DeliveredOwned(spans, programs, i);
    }
    if AllLocal(spans) {
      forall i | 0 <= i < |programs|
        ensures Spoken(programs[i])
      {
        LocalIsNamed(spans, programs[i]);
        SpokenIsNamed(programs[i]);
      }
    }
    if forall i | 0 <= i < |programs| :: Spoken(programs[i]) {
      forall x | x in spans
        ensures LocalSpan(spans, spans[x].span)
      {
        var i :| 0 <= i < |programs| && x in Emitted(programs[i]);
        SpokenIsNamed(programs[i]);
        NamedIsLocal(spans, programs[i], x);
      }
    }
  }

  /** Record, deliver in any order, rebuild: exactly the executed call trees come back. */
  method RebuildExecuted(order: seq<string>, spans: SpanMap, ghost programs: seq<Program>)
    returns (r: Result<seq<RunTree>, Escalations.ArchiveError>)
    requires Delivered(spans, programs) && NoDup(order) && Elements(order) == spans.Keys
    ensures r.Ok? <==> forall i | 0 <= i < |programs| :: Spoken(programs[i])
    ensures r.Ok? ==> r.value == AllExecuted(programs)
  {
    r := TreeBuilder.BuildExecutionTree(order, spans);
    EmittedIsLegal(spans, programs);
    if r.Ok? {
      ForestIsExecuted(spans, programs, r.value);
    }
  }
}

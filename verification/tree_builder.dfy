/**
 The second pass over accepted spans, which files every span under its parent while it meets them
 in arbitrary order (src/cord_runtime/viewer.py, build_execution_tree).
 */
module TreeBuilder {
  import opened Basics
  import opened Spans
  import opened ArchiveQuery
  import opened Escalations
  import opened Viewer

  datatype StepRecord = StepRecord(attempts: seq<string>, children: seq<string>)

  /** How far each Step is from its Run, counting the Run as 1. */
  type Depths = map<string, nat>

  /** Runs, Steps and Attempts hang where the archive contract says they may. */
  ghost predicate Hung(spans: SpanMap, depth: Depths) {
    && (forall id {:trigger HungStep(spans, depth, id)} | IsKind(spans, id, StepKind) :: HungStep(spans, depth, id))
    && (forall id {:trigger HangsRight(spans, id)} | id in spans :: HangsRight(spans, id))
  }

  ghost predicate HungStep(spans: SpanMap, depth: Depths, id: string)
    requires id in spans
  {
    && id in depth && depth[id] <= |spans|
    && spans[id].span.parentId.Some?
    && (IsKind(spans, spans[id].span.parentId.value, RunKind) ==> depth[id] == 2)
    && (!IsKind(spans, spans[id].span.parentId.value, RunKind) ==>
          IsKind(spans, spans[id].span.parentId.value, StepKind) && spans[id].span.parentId.value in depth
          && depth[id] == depth[spans[id].span.parentId.value] + 1)
  }

  lemma LegalIsHung(spans: SpanMap) returns (depth: Depths)
    requires Legal(spans)
    ensures Hung(spans, depth)
  {
    LegalIsRooted(spans);
    depth := PathDepths(spans);
    forall id | IsKind(spans, id, StepKind)
      ensures HungStep(spans, depth, id)
    {
      PathIsHung(spans, id);
    }
    forall id | id in spans
      ensures HangsRight(spans, id)
    {
      LegalHangsRight(spans, id);
    }
  }

  ghost function PathDepths(spans: SpanMap): Depths
    requires Rooted(spans)
  {
    map id | id in spans && IsKind(spans, id, StepKind) :: |PathOf(spans, id)|
  }

  /** A Run hangs nowhere, an Attempt under a Step. */
  ghost predicate HangsRight(spans: SpanMap, id: string)
    requires id in spans
  {
    && Role(spans[id].span).Ok?
    && (IsKind(spans, id, RunKind) ==> spans[id].span.parentId.None?)
    && (IsKind(spans, id, AttemptKind) ==> spans[id].span.parentId.Some? && IsKind(spans, spans[id].span.parentId.value, StepKind))
  }

  lemma LegalHangsRight(spans: SpanMap, id: string)
    requires Legal(spans) && id in spans
    ensures HangsRight(spans, id)
  {
    assert LegalSpan(spans, id);
  }

  lemma PathIsHung(spans: SpanMap, id: string)
    requires Rooted(spans) && IsKind(spans, id, StepKind)
    ensures |PathOf(spans, id)| <= |spans| && spans[id].span.parentId.Some?
    ensures
      var up := spans[id].span.parentId.value;
      && (IsKind(spans, up, RunKind) ==> |PathOf(spans, id)| == 2)
      && (!IsKind(spans, up, RunKind) ==> IsKind(spans, up, StepKind) && |PathOf(spans, id)| == |PathOf(spans, up)| + 1)
  {
    var p := PathOf(spans, id);
    ChainAcyclic(spans, p);
    ElementsSize(p);
    SubsetSize(Elements(p), spans.Keys);
    assert ParentOf(spans, p[0], p[1]);
    if |p| > 2 {
      assert IsKind(spans, p[1], StepKind);
    }
    PathOfParent(spans, id, p[1]);
  }

  // ---------------------------------------------------------------- the records as a value

  /** The record dictionaries, each with its insertion order. */
  datatype Books = Books(runs: map<string, seq<string>>, runOrder: seq<string>, steps: map<string, StepRecord>, stepOrder: seq<string>)
  {
    /** The Steps filed so far under a Run or a Step. */
    function Filed(up: string): seq<string> {
      if up in runs then runs[up] else if up in steps then steps[up].children else []
    }

    predicate FiledUp(spans: SpanMap, id: string) {
      id in spans && spans[id].span.parentId.Some? && id in Filed(spans[id].span.parentId.value)
    }

    function AddRun(id: string): Books {
      this.(runs := runs[id := []], runOrder := runOrder + [id])
    }

    function AddStep(id: string): Books {
      this.(steps := steps[id := StepRecord([], [])], stepOrder := stepOrder + [id])
    }

    function FileUnderRun(id: string, up: string): Books
      requires up in runs
    {
      this.(runs := runs[up := runs[up] + [id]])
    }

    function FileUnderStep(id: string, up: string): Books
      requires up in steps
    {
      this.(steps := steps[up := steps[up].(children := steps[up].children + [id])])
    }

    function AddAttempt(id: string, step: string): Books
      requires step in steps
    {
      this.(steps := steps[step := steps[step].(attempts := steps[step].attempts + [id])])
    }
  }

  ghost predicate Kinds(spans: SpanMap, b: Books) {
    && (forall id | id in b.runs :: IsKind(spans, id, RunKind))
    && (forall id | id in b.steps :: IsKind(spans, id, StepKind))
    && NoDup(b.runOrder) && Elements(b.runOrder) == b.runs.Keys
    && NoDup(b.stepOrder) && Elements(b.stepOrder) == b.steps.Keys
  }

  /** Every Step outside `open` is filed, once, under its own parent. */
  ghost predicate Files(spans: SpanMap, b: Books, open: set<string>) {
    && open <= b.steps.Keys
    && (forall id {:trigger b.FiledUp(spans, id)} | id in b.steps && id !in open :: b.FiledUp(spans, id))
    && (forall up :: NoDup(b.Filed(up)))
    && (forall up, id | id in b.Filed(up) :: id in b.steps && id !in open && ParentOf(spans, id, up))
  }

  ghost predicate Attempts(spans: SpanMap, b: Books) {
    && (forall id | id in b.steps :: NoDup(b.steps[id].attempts))
    && (forall id, a | id in b.steps && a in b.steps[id].attempts :: IsKind(spans, a, AttemptKind) && ParentOf(spans, a, id))
  }

  /** Everything recorded is recorded right; only the Steps in `open` still wait for their parent. */
  ghost predicate Tidy(spans: SpanMap, b: Books, open: set<string>) {
    Kinds(spans, b) && Files(spans, b, open) && Attempts(spans, b)
  }

  /** Nothing recorded before is lost, and no Attempt is recorded. */
  ghost predicate Kept(a: Books, b: Books) {
    && a.runs.Keys <= b.runs.Keys && a.steps.Keys <= b.steps.Keys
    && (forall id | id in b.steps :: b.steps[id].attempts == if id in a.steps then a.steps[id].attempts else [])
  }

  lemma AddRunTidy(spans: SpanMap, b: Books, open: set<string>, id: string)
    requires Tidy(spans, b, open) && IsKind(spans, id, RunKind) && id !in b.runs
    ensures Tidy(spans, b.AddRun(id), open) && Kept(b, b.AddRun(id))
  {
    AddRunKinds(spans, b, id);
    AddRunFiles(spans, b, open, id);
  }

  lemma AddRunKinds(spans: SpanMap, b: Books, id: string)
    requires Kinds(spans, b) && IsKind(spans, id, RunKind) && id !in b.runs
    ensures Kinds(spans, b.AddRun(id))
  {
    assert id !in Elements(b.runOrder);
    assert Elements(b.AddRun(id).runOrder) == Elements(b.runOrder) + {id};
  }

  lemma AddRunFiles(spans: SpanMap, b: Books, open: set<string>, id: string)
    requires Kinds(spans, b) && Files(spans, b, open) && IsKind(spans, id, RunKind) && id !in b.runs
    ensures Files(spans, b.AddRun(id), open)
  {
    var c := b.AddRun(id);
    assert id !in b.steps;
    assert forall up :: c.Filed(up) == b.Filed(up);
    SameFiles(spans, b, c, open, open);
  }

  lemma AddStepTidy(spans: SpanMap, b: Books, open: set<string>, id: string)
    requires Tidy(spans, b, open) && IsKind(spans, id, StepKind) && id !in b.steps
    ensures Tidy(spans, b.AddStep(id), open + {id}) && Kept(b, b.AddStep(id))
  {
    AddStepKinds(spans, b, id);
    AddStepAttempts(spans, b, id);
    AddStepFiles(spans, b, open, id);
  }

  lemma AddStepKinds(spans: SpanMap, b: Books, id: string)
    requires Kinds(spans, b) && IsKind(spans, id, StepKind) && id !in b.steps
    ensures Kinds(spans, b.AddStep(id))
  {
    assert id !in Elements(b.stepOrder);
    assert Elements(b.AddStep(id).stepOrder) == Elements(b.stepOrder) + {id};
  }

  lemma AddStepAttempts(spans: SpanMap, b: Books, id: string)
    requires Attempts(spans, b) && id !in b.steps
    ensures Attempts(spans, b.AddStep(id)) && Kept(b, b.AddStep(id))
  {
  }

  lemma AddStepFiles(spans: SpanMap, b: Books, open: set<string>, id: string)
    requires Kinds(spans, b) && Files(spans, b, open) && IsKind(spans, id, StepKind) && id !in b.steps
    ensures Files(spans, b.AddStep(id), open + {id})
  {
    var c := b.AddStep(id);
    assert id !in b.runs;
    assert forall up :: c.Filed(up) == b.Filed(up);
    SameFiles(spans, b, c, open, open + {id});
  }

  /** Unchanged lists stay right when only open Steps are added. */
  lemma SameFiles(spans: SpanMap, b: Books, c: Books, open: set<string>, open': set<string>)
    requires Files(spans, b, open) && open <= open' <= c.steps.Keys
    requires b.steps.Keys <= c.steps.Keys && c.steps.Keys - open' == b.steps.Keys - open
    requires forall up :: c.Filed(up) == b.Filed(up)
    ensures Files(spans, c, open')
  {
    forall x | x in c.steps && x !in open'
      ensures c.FiledUp(spans, x)
    {
      assert x in c.steps.Keys - open';
      assert b.FiledUp(spans, x);
    }
    forall up, x | x in c.Filed(up)
      ensures x in c.steps && x !in open' && ParentOf(spans, x, up)
    {
      assert x in b.Filed(up) && x in b.steps.Keys - open;
    }
    forall up
      ensures NoDup(c.Filed(up))
    {
      assert NoDup(b.Filed(up));
    }
  }

  /** Filing one open Step under its parent closes it and disturbs no other list. */
  lemma FiledOnce(spans: SpanMap, b: Books, c: Books, open: set<string>, id: string, up: string)
    requires Files(spans, b, open + {id}) && id !in open && ParentOf(spans, id, up)
    requires c.steps.Keys == b.steps.Keys && c.Filed(up) == b.Filed(up) + [id]
    requires forall x | x != up :: c.Filed(x) == b.Filed(x)
    ensures Files(spans, c, open)
  {
    assert id !in b.Filed(up);
    assert id in b.steps;
    forall x | x in c.steps && x !in open
      ensures c.FiledUp(spans, x)
    {
      if x != id {
        assert b.FiledUp(spans, x);
      }
    }
  }

  lemma FileUnderRunTidy(spans: SpanMap, b: Books, open: set<string>, id: string, up: string)
    requires Tidy(spans, b, open + {id}) && id !in open && up in b.runs && ParentOf(spans, id, up)
    ensures Tidy(spans, b.FileUnderRun(id, up), open) && Kept(b, b.FileUnderRun(id, up))
  {
    FiledOnce(spans, b, b.FileUnderRun(id, up), open, id, up);
  }

  lemma FileUnderStepTidy(spans: SpanMap, b: Books, open: set<string>, id: string, up: string)
    requires Tidy(spans, b, open + {id}) && id !in open && up in b.steps && ParentOf(spans, id, up)
    ensures Tidy(spans, b.FileUnderStep(id, up), open) && Kept(b, b.FileUnderStep(id, up))
  {
    assert up !in b.runs;
    FiledOnce(spans, b, b.FileUnderStep(id, up), open, id, up);
  }

  lemma AddAttemptTidy(spans: SpanMap, b: Books, id: string, step: string)
    requires Tidy(spans, b, {}) && IsKind(spans, id, AttemptKind) && ParentOf(spans, id, step) && step in b.steps
    requires id !in b.steps[step].attempts
    ensures Tidy(spans, b.AddAttempt(id, step), {})
  {
    AddAttemptAttempts(spans, b, id, step);
    var c := b.AddAttempt(id, step);
    assert c.steps.Keys == b.steps.Keys;
    SameFiles(spans, b, c, {}, {});
  }

  lemma AddAttemptAttempts(spans: SpanMap, b: Books, id: string, step: string)
    requires Attempts(spans, b) && IsKind(spans, id, AttemptKind) && ParentOf(spans, id, step) && step in b.steps
    requires id !in b.steps[step].attempts
    ensures Attempts(spans, b.AddAttempt(id, step))
  {
  }

  /** Every span met so far has its record, and only Attempts met so far are recorded. */
  ghost predicate Met(spans: SpanMap, b: Books, ids: seq<string>) {
    && (forall id | id in ids && IsKind(spans, id, RunKind) :: id in b.runs)
    && (forall id | id in ids && IsKind(spans, id, StepKind) :: id in b.steps)
    && (forall id | id in ids && IsKind(spans, id, AttemptKind) :: Recorded(spans, b, id))
    && (forall step, a | step in b.steps && a in b.steps[step].attempts :: a in ids)
  }

  ghost predicate Recorded(spans: SpanMap, b: Books, id: string) {
    && id in spans && spans[id].span.parentId.Some?
    && spans[id].span.parentId.value in b.steps && id in b.steps[spans[id].span.parentId.value].attempts
  }

  lemma MetKept(spans: SpanMap, a: Books, b: Books, ids: seq<string>)
    requires Met(spans, a, ids) && Kept(a, b)
    ensures Met(spans, b, ids)
  {
    forall id | id in ids && IsKind(spans, id, AttemptKind)
      ensures Recorded(spans, b, id)
    {
      assert Recorded(spans, a, id);
    }
  }

  lemma MetAttempt(spans: SpanMap, b: Books, ids: seq<string>, id: string, step: string)
    requires Met(spans, b, ids) && IsKind(spans, id, AttemptKind) && ParentOf(spans, id, step) && step in b.steps
    ensures Met(spans, b.AddAttempt(id, step), ids + [id])
  {
    var c := b.AddAttempt(id, step);
    forall x | x in ids + [id] && IsKind(spans, x, AttemptKind)
      ensures Recorded(spans, c, x)
    {
      assert x in ids ==> Recorded(spans, b, x);
    }
  }

  /** `w` climbs from one span to another, link by link. */
  ghost predicate Climbs(spans: SpanMap, w: seq<string>, from: string, to: string) {
    && |w| > 0 && w[0] == from && Last(w) == to
    && forall i | 0 <= i < |w| - 1 :: ParentOf(spans, w[i], w[i + 1])
  }

  /** A span itself, or one of its ancestors. */
  ghost predicate AtOrAbove(spans: SpanMap, id: string, up: string) {
    exists w :: Climbs(spans, w, id, up)
  }

  lemma AtItself(spans: SpanMap, id: string)
    ensures AtOrAbove(spans, id, id)
  {
    assert Climbs(spans, [id], id, id);
  }

  lemma AboveParent(spans: SpanMap, id: string, up: string, x: string)
    requires ParentOf(spans, id, up) && AtOrAbove(spans, up, x)
    ensures AtOrAbove(spans, id, x)
  {
    var w :| Climbs(spans, w, up, x);
    var v := [id] + w;
    forall i | 0 <= i < |v| - 1
      ensures ParentOf(spans, v[i], v[i + 1])
    {
      if i > 0 {
        assert ParentOf(spans, w[i - 1], w[i]);
      }
    }
    assert Climbs(spans, v, id, x);
  }

  predicate HasRecord(b: Books, x: string) {
    x in b.runs || x in b.steps
  }

  /** Whatever was recorded since is `id` or one of its ancestors. */
  ghost predicate AddsAbove(spans: SpanMap, a: Books, b: Books, id: string) {
    forall x | HasRecord(b, x) && !HasRecord(a, x) :: AtOrAbove(spans, id, x)
  }

  /** Each Run and Step recorded was met, or is an ancestor of a span that was. */
  ghost predicate OnlyNeeded(spans: SpanMap, b: Books, ids: seq<string>) {
    forall x | HasRecord(b, x) :: Needed(spans, x, ids)
  }

  ghost predicate Needed(spans: SpanMap, x: string, ids: seq<string>) {
    exists id | id in ids :: AtOrAbove(spans, id, x)
  }

  lemma AddsAboveParent(spans: SpanMap, a: Books, b: Books, c: Books, d: Books, id: string, up: string)
    requires ParentOf(spans, id, up) && AddsAbove(spans, b, c, up)
    requires forall x | HasRecord(b, x) :: HasRecord(a, x) || x == id
    requires forall x | HasRecord(d, x) :: HasRecord(c, x)
    ensures AddsAbove(spans, a, d, id)
  {
    forall x | HasRecord(d, x) && !HasRecord(a, x)
      ensures AtOrAbove(spans, id, x)
    {
      if HasRecord(b, x) {
        AtItself(spans, id);
      } else {
        assert HasRecord(c, x);
        AboveParent(spans, id, up, x);
      }
    }
  }

  lemma NeededOn(spans: SpanMap, a: Books, b: Books, ids: seq<string>, id: string)
    requires OnlyNeeded(spans, a, ids) && AddsAbove(spans, a, b, id)
    ensures OnlyNeeded(spans, b, ids + [id])
  {
    forall x | HasRecord(b, x)
      ensures Needed(spans, x, ids + [id])
    {
      if HasRecord(a, x) {
        assert Needed(spans, x, ids);
        var y :| y in ids && AtOrAbove(spans, y, x);
        assert y in ids + [id];
      } else {
        assert id in ids + [id];
      }
    }
  }

  lemma AddsAboveThrough(spans: SpanMap, a: Books, b: Books, id: string, step: string)
    requires ParentOf(spans, id, step) && AddsAbove(spans, a, b, step)
    ensures AddsAbove(spans, a, b, id)
  {
    forall x | HasRecord(b, x) && !HasRecord(a, x)
      ensures AtOrAbove(spans, id, x)
    {
      AboveParent(spans, id, step, x);
    }
  }

  /** All Steps and Attempts under each record are filed. */
  ghost predicate Complete(spans: SpanMap, b: Books) {
    && Tidy(spans, b, {})
    && (forall id :: id in b.runs <==> IsKind(spans, id, RunKind))
    && (forall id :: id in b.steps <==> IsKind(spans, id, StepKind))
    && (forall id | IsKind(spans, id, AttemptKind) :: Recorded(spans, b, id))
  }

  lemma MetAll(spans: SpanMap, b: Books, order: seq<string>)
    requires Tidy(spans, b, {}) && Met(spans, b, order) && Elements(order) == spans.Keys
    ensures Complete(spans, b)
  {
    forall id | id in spans
      ensures id in order
    {
      assert id in Elements(order);
    }
  }

  lemma FiledIsComplete(spans: SpanMap, b: Books, up: string)
    requires Complete(spans, b)
    ensures NoDup(b.Filed(up))
    ensures forall id :: id in b.Filed(up) <==> IsKind(spans, id, StepKind) && ParentOf(spans, id, up)
  {
    forall id | IsKind(spans, id, StepKind) && ParentOf(spans, id, up)
      ensures id in b.Filed(up)
    {
      assert b.FiledUp(spans, id);
    }
  }

  lemma AttemptsAreComplete(spans: SpanMap, b: Books, step: string)
    requires Complete(spans, b) && step in b.steps
    ensures NoDup(b.steps[step].attempts)
    ensures forall a :: a in b.steps[step].attempts <==> IsKind(spans, a, AttemptKind) && ParentOf(spans, a, step)
  {
    forall a | IsKind(spans, a, AttemptKind) && ParentOf(spans, a, step)
      ensures a in b.steps[step].attempts
    {
      assert Recorded(spans, b, a);
    }
  }

  lemma KeptTwice(a: Books, b: Books, c: Books, d: Books)
    requires Kept(a, b) && Kept(b, c) && Kept(c, d)
    ensures Kept(a, d)
  {
  }

  lemma FreshStep(spans: SpanMap, depth: Depths, b: Books, open: set<string>, id: string)
    requires Tidy(spans, b, open) && IsKind(spans, id, StepKind) && id !in b.steps && HungStep(spans, depth, id)
    ensures id !in open && ParentOf(spans, id, spans[id].span.parentId.value)
    ensures spans[id].span.parentId.value in spans
  {
  }

  ghost predicate AtLevel(spans: SpanMap, depth: Depths, ids: seq<string>, level: nat) {
    forall id | id in ids :: IsKind(spans, id, StepKind) && id in depth && depth[id] == level
  }

  lemma StepIsListed(spans: SpanMap, depth: Depths, b: Books, id: string, level: nat)
    requires Hung(spans, depth) && Complete(spans, b) && AtLevel(spans, depth, [id], level)
    ensures id in b.steps && level <= |spans|
    ensures NoDup(b.steps[id].children) && AtLevel(spans, depth, b.steps[id].children, level + 1)
  {
    assert id in [id] && id !in b.runs;
    FiledIsComplete(spans, b, id);
    assert b.Filed(id) == b.steps[id].children;
    assert HungStep(spans, depth, id);
    forall c | c in b.steps[id].children
      ensures IsKind(spans, c, StepKind) && c in depth && depth[c] == level + 1
    {
      assert HungStep(spans, depth, c);
    }
  }

  lemma RunIsListed(spans: SpanMap, depth: Depths, b: Books, id: string)
    requires Hung(spans, depth) && Complete(spans, b) && id in b.runs
    ensures NoDup(b.runs[id]) && AtLevel(spans, depth, b.runs[id], 2)
    ensures forall x :: x in b.runs[id] <==> IsKind(spans, x, StepKind) && ParentOf(spans, x, id)
  {
    FiledIsComplete(spans, b, id);
    assert b.Filed(id) == b.runs[id];
    forall c | c in b.runs[id]
      ensures IsKind(spans, c, StepKind) && c in depth && depth[c] == 2
    {
      assert HungStep(spans, depth, c);
    }
  }

  lemma SortedIsTree(spans: SpanMap, b: Books, n: Node)
    requires Complete(spans, b) && n.id in b.steps
    requires n.attempts == SortByStart(spans, b.steps[n.id].attempts)
    requires Ids(n.children) == SortByStart(spans, b.steps[n.id].children)
    requires forall i | 0 <= i < |n.children| :: IsTree(spans, n.children[i])
    ensures IsTree(spans, n)
  {
    assert n.id !in b.runs;
    FiledIsComplete(spans, b, n.id);
    assert b.Filed(n.id) == b.steps[n.id].children;
    AttemptsAreComplete(spans, b, n.id);
  }

  lemma PrefixFresh(order: seq<string>, i: nat)
    requires NoDup(order) && i < |order|
    ensures order[i] !in order[..i] && order[..i + 1] == order[..i] + [order[i]] && order[i] in Elements(order)
  {
  }

  // ---------------------------------------------------------------- the program

  class Builder {
    const spans: SpanMap
    ghost const depth: Depths
    var runs: map<string, seq<string>>
    var runOrder: seq<string>
    var steps: map<string, StepRecord>
    var stepOrder: seq<string>

    function Value(): Books
      reads this
    {
      Books(runs, runOrder, steps, stepOrder)
    }

    constructor (spans: SpanMap, ghost depth: Depths)
      ensures this.spans == spans && this.depth == depth && Value() == Books(map[], [], map[], [])
    {
      this.spans := spans;
      this.depth := depth;
      runs, runOrder, steps, stepOrder := map[], [], map[], [];
    }

    method EnsureRun(id: string, ghost open: set<string>)
      requires Tidy(spans, Value(), open) && IsKind(spans, id, RunKind)
      modifies this
      ensures Tidy(spans, Value(), open) && id in runs && Kept(old(Value()), Value()) && AddsAbove(spans, old(Value()), Value(), id)
    {
      AtItself(spans, id);
      if id !in runs {
        AddRunTidy(spans, Value(), open, id);
        runs, runOrder := runs[id := []], runOrder + [id];
      }
    }

    /** Record a Step and every ancestor, each filed once under its own parent. */
    method EnsureStep(id: string, ghost open: set<string>)
      requires Hung(spans, depth) && Tidy(spans, Value(), open) && IsKind(spans, id, StepKind)
      requires HungStep(spans, depth, id)
      requires forall x | x in open :: x in depth && depth[x] > depth[id]
      modifies this
      ensures Tidy(spans, Value(), open) && id in steps && Kept(old(Value()), Value()) && AddsAbove(spans, old(Value()), Value(), id)
      decreases depth[id]
    {
      if id !in steps {
        ghost var b := Value();
        FreshStep(spans, depth, b, open, id);
        AddStepTidy(spans, b, open, id);
        steps, stepOrder := steps[id := StepRecord([], [])], stepOrder + [id];
        ghost var c := Value();
        assert c == b.AddStep(id);
        var up := spans[id].span.parentId.value;
        if HasRole(spans[up].span, RunKind) {
          EnsureRun(up, open + {id});
          ghost var d := Value();
          FileUnderRunTidy(spans, d, open, id, up);
          runs := runs[up := runs[up] + [id]];
          assert Value() == d.FileUnderRun(id, up);
          KeptTwice(b, c, d, Value());
          AddsAboveParent(spans, b, c, d, Value(), id, up);
        } else {
          assert HungStep(spans, depth, up);
          EnsureStep(up, open + {id});
          ghost var d := Value();
          FileUnderStepTidy(spans, d, open, id, up);
          steps := steps[up := steps[up].(children := steps[up].children + [id])];
          assert Value() == d.FileUnderStep(id, up);
          KeptTwice(b, c, d, Value());
          AddsAboveParent(spans, b, c, d, Value(), id, up);
        }
      }
    }

    /** The body of the loop over all spans. */
    method Meet(ghost before: seq<string>, id: string)
      requires Hung(spans, depth) && Tidy(spans, Value(), {}) && Met(spans, Value(), before) && id in spans && id !in before
      requires OnlyNeeded(spans, Value(), before)
      modifies this
      ensures Tidy(spans, Value(), {}) && Met(spans, Value(), before + [id])
      ensures OnlyNeeded(spans, Value(), before + [id])
    {
      ghost var start := Value();
      assert HangsRight(spans, id);
      var kind := Role(spans[id].span);
      if kind == Ok(Some(RunKind)) {
        EnsureRun(id, {});
        MetKept(spans, start, Value(), before);
        NeededOn(spans, start, Value(), before, id);
      } else if kind == Ok(Some(StepKind)) {
        assert HungStep(spans, depth, id);
        EnsureStep(id, {});
        MetKept(spans, start, Value(), before);
        NeededOn(spans, start, Value(), before, id);
      } else if kind == Ok(Some(AttemptKind)) {
        var step := spans[id].span.parentId.value;
        assert HungStep(spans, depth, step);
        EnsureStep(step, {});
        MetKept(spans, start, Value(), before);
        AddsAboveThrough(spans, start, Value(), id, step);
        NeededOn(spans, start, Value(), before, id);
        AddAttemptTidy(spans, Value(), id, step);
        MetAttempt(spans, Value(), before, id, step);
        steps := steps[step := steps[step].(attempts := steps[step].attempts + [id])];
      } else {
        NeededOn(spans, start, Value(), before, id);
      }
    }

    /** `_sort_steps`: order one list by start time, and everything below it. */
    method SortSteps(ids: seq<string>, ghost level: nat) returns (nodes: seq<Node>)
      requires Hung(spans, depth) && Complete(spans, Value()) && NoDup(ids)
      requires AtLevel(spans, depth, ids, level)
      ensures Ids(nodes) == SortByStart(spans, ids)
      ensures forall i | 0 <= i < |nodes| :: IsTree(spans, nodes[i])
      decreases |spans| + 1 - level
    {
      var sorted := SortByStart(spans, ids);
      nodes := [];
      for i := 0 to |sorted|
        invariant |nodes| == i && forall j | 0 <= j < i :: nodes[j].id == sorted[j] && IsTree(spans, nodes[j])
      {
        assert sorted[i] in sorted;
        StepIsListed(spans, depth, Value(), sorted[i], level);
        var children := SortSteps(steps[sorted[i]].children, level + 1);
        var n := Node(sorted[i], SortByStart(spans, steps[sorted[i]].attempts), children);
        SortedIsTree(spans, Value(), n);
        nodes := nodes + [n];
      }
      assert Ids(nodes) == sorted;
    }

    method Finish() returns (trees: seq<RunTree>)
      requires Hung(spans, depth) && Complete(spans, Value())
      ensures IsForest(spans, trees)
    {
      var sorted := SortByStart(spans, runOrder);
      trees := [];
      for i := 0 to |sorted|
        invariant |trees| == i && forall j | 0 <= j < i :: trees[j].id == sorted[j] && IsRunTree(spans, trees[j])
      {
        var id := sorted[i];
        assert id in sorted && id in Elements(runOrder);
        RunIsListed(spans, depth, Value(), id);
        var steps := SortSteps(runs[id], 2);
        trees := trees + [RunTree(id, steps)];
      }
      assert RunIds(trees) == sorted;
      forall x
        ensures x in sorted <==> IsKind(spans, x, RunKind)
      {
        assert x in sorted <==> x in Elements(runOrder);
      }
    }
  }

  /**
   Validate, then rebuild. Refuses exactly the spans the archive contract refuses; otherwise the
   result is the recorded forest, in whatever order the spans are met.
   */
  method BuildExecutionTree(order: seq<string>, spans: SpanMap) returns (r: Result<seq<RunTree>, ArchiveError>)
    requires Keyed(spans) && NoDup(order) && Elements(order) == spans.Keys
    ensures r.Ok? <==> Legal(spans)
    ensures r.Ok? ==> IsForest(spans, r.value)
  {
    if |spans| > 0 {
      var rows := QuerySpans(order, spans, 0, 1);
      if rows.Err? { return Err(rows.error); }
    }
    ghost var depth := LegalIsHung(spans);
    var trees := Rebuild(order, spans, depth);
    return Ok(trees);
  }

  method Rebuild(order: seq<string>, spans: SpanMap, ghost depth: Depths) returns (trees: seq<RunTree>)
    requires Hung(spans, depth) && NoDup(order) && Elements(order) == spans.Keys
    ensures IsForest(spans, trees)
  {
    var builder := new Builder(spans, depth);
    for i := 0 to |order|
      invariant builder.spans == spans && builder.depth == depth
      invariant Tidy(spans, builder.Value(), {}) && Met(spans, builder.Value(), order[..i]) && OnlyNeeded(spans, builder.Value(), order[..i])
    {
      PrefixFresh(order, i);
      builder.Meet(order[..i], order[i]);
    }
    assert order[..|order|] == order;
    MetAll(spans, builder.Value(), order);
    trees := builder.Finish();
  }
}

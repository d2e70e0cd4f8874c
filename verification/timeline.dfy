/**
 The timeline fields of a rebuilt Run: repeated executions, approval waits, and execution time
 (src/cord_runtime/viewer.py, build_execution_tree).
 */
module Timeline {
  import opened Basics
  import opened Spans
  import opened ArchiveQuery
  import opened Viewer

  /** A value as a dictionary key: `True`, `1` and `1.0` are one. */
  function Hashed(v: Value): Value {
    if Number(v).Some? then Float(Number(v).value) else v
  }

  /** The recorded `cord.resumed_from`; the archive contract leaves its type open, and null counts as absent. */
  function ResumedFrom(spans: SpanMap, id: string): Option<Value> {
    var recorded := if id in spans then Get(spans[id].span.attributes, ResumedFromKey) else None;
    if recorded.None? || recorded.value == Raw("null") then None else Some(Hashed(recorded.value))
  }

  /** The Step a Step resumes, when it is part of the archive. */
  function Original(spans: SpanMap, id: string): Option<string> {
    match ResumedFrom(spans, id)
    case Some(Str(original)) => if IsKind(spans, original, StepKind) then Some(original) else None
    case _ => None
  }

  // ---------------------------------------------------------------- repeated executions

  /** The Steps that resume from one value. */
  ghost function Resuming(spans: SpanMap, steps: seq<string>, from: Value): set<string> {
    set id | id in steps && ResumedFrom(spans, id) == Some(from)
  }

  /** `group` holds, in order, the Steps of `steps` that resume from `from`. */
  ghost predicate Groups(spans: SpanMap, steps: seq<string>, groups: map<Value, seq<string>>) {
    && (forall from | from in groups :: NoDup(groups[from]) && |groups[from]| > 0)
    && (forall from, id | from in groups && id in groups[from] :: id in steps && ResumedFrom(spans, id) == Some(from))
    && (forall id | id in steps && ResumedFrom(spans, id).Some? ::
          ResumedFrom(spans, id).value in groups && id in groups[ResumedFrom(spans, id).value])
  }

  lemma GroupOne(spans: SpanMap, steps: seq<string>, groups: map<Value, seq<string>>, id: string)
    requires Groups(spans, steps, groups) && id !in steps
    ensures
      var from := ResumedFrom(spans, id);
      Groups(spans, steps + [id], if from.None? then groups else groups[from.value := (if from.value in groups then groups[from.value] else []) + [id]])
  {
  }

  /** All but an earliest Step of every group are flagged, and no other Step is. */
  ghost predicate FlagsAllButEarliest(spans: SpanMap, steps: seq<string>, flagged: set<string>) {
    && (forall id | id in flagged :: id in steps && ResumedFrom(spans, id).Some?)
    && (forall from | Resuming(spans, steps, from) != {} ::
          exists first :: first in Resuming(spans, steps, from) && first !in flagged
            && Resuming(spans, steps, from) - {first} <= flagged
            && forall id | id in Resuming(spans, steps, from) :: StartOf(spans, first) <= StartOf(spans, id))
  }

  /** Flag every Step that resumes a span another Step already resumed. */
  method FlagRepeated(spans: SpanMap, steps: seq<string>) returns (flagged: set<string>)
    requires NoDup(steps)
    ensures FlagsAllButEarliest(spans, steps, flagged)
  {
    var groups: map<Value, seq<string>> := map[];
    for i := 0 to |steps|
      invariant Groups(spans, steps[..i], groups)
    {
      assert steps[..i + 1] == steps[..i] + [steps[i]];
      GroupOne(spans, steps[..i], groups, steps[i]);
      var from := ResumedFrom(spans, steps[i]);
      if from.Some? {
        groups := groups[from.value := (if from.value in groups then groups[from.value] else []) + [steps[i]]];
      }
    }
    assert steps[..|steps|] == steps;
    flagged := {};
    var left := groups.Keys;
    while left != {}
      invariant left <= groups.Keys
      invariant forall id :: id in flagged <==> exists from :: from in groups.Keys - left && id in SortByStart(spans, groups[from])[1..]
      decreases |left|
    {
      var from :| from in left;
      var sorted := SortByStart(spans, groups[from]);
      FirstIsMember(groups[from]);
      FlagGroup(spans, groups, left, flagged, from);
      flagged := flagged + Elements(sorted[1..]);
      left := left - {from};
    }
    FlagsAreRight(spans, steps, groups, flagged);
  }

  lemma FlagGroup(spans: SpanMap, groups: map<Value, seq<string>>, left: set<Value>, flagged: set<string>, from: Value)
    requires left <= groups.Keys && from in left
    requires forall x | x in groups :: |groups[x]| > 0
    requires forall id :: id in flagged <==> exists x :: x in groups.Keys - left && id in SortByStart(spans, groups[x])[1..]
    ensures forall id :: id in flagged + Elements(SortByStart(spans, groups[from])[1..])
              <==> exists x :: x in groups.Keys - (left - {from}) && id in SortByStart(spans, groups[x])[1..]
  {
    forall id
      ensures id in flagged + Elements(SortByStart(spans, groups[from])[1..])
              <==> exists x :: x in groups.Keys - (left - {from}) && id in SortByStart(spans, groups[x])[1..]
    {
      if id in flagged {
        var x :| x in groups.Keys - left && id in SortByStart(spans, groups[x])[1..];
        assert x in groups.Keys - (left - {from});
      }
      if id in Elements(SortByStart(spans, groups[from])[1..]) {
        assert from in groups.Keys - (left - {from});
      }
    }
  }

  lemma FlagsAreRight(spans: SpanMap, steps: seq<string>, groups: map<Value, seq<string>>, flagged: set<string>)
    requires Groups(spans, steps, groups)
    requires forall id :: id in flagged <==> exists from :: from in groups && id in SortByStart(spans, groups[from])[1..]
    ensures FlagsAllButEarliest(spans, steps, flagged)
  {
    forall id | id in flagged
      ensures id in steps && ResumedFrom(spans, id).Some?
    {
      var from :| from in groups && id in SortByStart(spans, groups[from])[1..];
      assert id in SortByStart(spans, groups[from]);
    }
    forall from | Resuming(spans, steps, from) != {}
      ensures exists first :: first in Resuming(spans, steps, from) && first !in flagged
                && Resuming(spans, steps, from) - {first} <= flagged
                && forall id | id in Resuming(spans, steps, from) :: StartOf(spans, first) <= StartOf(spans, id)
    {
      var some :| some in Resuming(spans, steps, from);
      var sorted := SortByStart(spans, groups[from]);
      FirstOfGroup(spans, steps, groups, flagged, from);
    }
  }

  lemma FirstOfGroup(spans: SpanMap, steps: seq<string>, groups: map<Value, seq<string>>, flagged: set<string>, from: Value)
    requires Groups(spans, steps, groups) && from in groups
    requires forall id :: id in flagged <==> exists x :: x in groups && id in SortByStart(spans, groups[x])[1..]
    ensures
      var sorted := SortByStart(spans, groups[from]);
      && |sorted| > 0
      && sorted[0] in Resuming(spans, steps, from) && sorted[0] !in flagged
      && Resuming(spans, steps, from) - {sorted[0]} <= flagged
      && forall id | id in Resuming(spans, steps, from) :: StartOf(spans, sorted[0]) <= StartOf(spans, id)
  {
    var sorted := SortByStart(spans, groups[from]);
    FirstIsMember(groups[from]);
    FirstIsMember(sorted);
    TailMembers(sorted);
    FirstNotFlagged(spans, steps, groups, from);
    forall id | id in Resuming(spans, steps, from)
      ensures id in sorted && StartOf(spans, sorted[0]) <= StartOf(spans, id)
    {
      SmallestFirst(spans, sorted, id);
    }
  }

  lemma FirstNotFlagged(spans: SpanMap, steps: seq<string>, groups: map<Value, seq<string>>, from: Value)
    requires Groups(spans, steps, groups) && from in groups
    ensures |SortByStart(spans, groups[from])| > 0
    ensures forall x | x in groups :: SortByStart(spans, groups[from])[0] !in SortByStart(spans, groups[x])[1..]
  {
    var sorted := SortByStart(spans, groups[from]);
    FirstIsMember(groups[from]);
    assert groups[from][0] in sorted;
    FirstIsMember(sorted);
    TailMembers(sorted);
    assert sorted[0] in groups[from];
    forall x | x in groups
      ensures sorted[0] !in SortByStart(spans, groups[x])[1..]
    {
      var other := SortByStart(spans, groups[x]);
      FirstIsMember(groups[x]);
      assert groups[x][0] in other;
      TailMembers(other);
      assert ResumedFrom(spans, sorted[0]) == Some(from);
      assert sorted[0] in other <==> sorted[0] in groups[x];
      if x != from {
        assert forall id | id in groups[x] :: ResumedFrom(spans, id) == Some(x);
      }
    }
  }

  /** Of n Steps resuming one span, exactly n - 1 are flagged. */
  lemma AllButOneFlagged(spans: SpanMap, steps: seq<string>, flagged: set<string>, from: Value)
    requires FlagsAllButEarliest(spans, steps, flagged) && Resuming(spans, steps, from) != {}
    ensures |Resuming(spans, steps, from) * flagged| == |Resuming(spans, steps, from)| - 1
  {
    var all := Resuming(spans, steps, from);
    var first :| first in all && first !in flagged && all - {first} <= flagged;
    assert all * flagged == all - {first};
  }

  // ---------------------------------------------------------------- waits and totals

  /** The gap between the paused Step's end and the resuming Step's start, when both are known. */
  function ApprovalWait(spans: SpanMap, id: string): Option<nat> {
    match Original(spans, id)
    case None => None
    case Some(original) => Some(if StartOf(spans, id) > EndOf(spans, original) then StartOf(spans, id) - EndOf(spans, original) else 0)
  }

  function EndOf(spans: SpanMap, id: string): nat {
    if id in spans then spans[id].span.end else 0
  }

  function WaitOf(spans: SpanMap, id: string): nat {
    if ApprovalWait(spans, id).Some? then ApprovalWait(spans, id).value else 0
  }

  function SumWaits(spans: SpanMap, ids: seq<string>): nat {
    if |ids| == 0 then 0 else SumWaits(spans, ids[..|ids| - 1]) + WaitOf(spans, Last(ids))
  }

  function MaxEnd(spans: SpanMap, ids: seq<string>, at_least: nat): (end: nat)
    ensures at_least <= end && forall id | id in ids :: EndOf(spans, id) <= end
    ensures end == at_least || exists id | id in ids :: EndOf(spans, id) == end
  {
    if |ids| == 0 then at_least
    else
      assert ids == ids[..|ids| - 1] + [Last(ids)];
      Max(MaxEnd(spans, ids[..|ids| - 1], at_least), EndOf(spans, Last(ids)))
  }

  /** Every Attempt below some Steps. */
  function FlattenAttempts(nodes: seq<Node>): seq<string> {
    if |nodes| == 0 then [] else nodes[0].attempts + FlattenAttempts(nodes[0].children) + FlattenAttempts(nodes[1..])
  }

  /** A Run's `end_ns`: the outer boundary of everything recorded in it. */
  function RunEnd(spans: SpanMap, t: RunTree): (end: nat)
    ensures EndOf(spans, t.id) <= end
    ensures forall id | id in Flatten(t.steps) || id in FlattenAttempts(t.steps) :: EndOf(spans, id) <= end
    ensures end == EndOf(spans, t.id) || exists id :: (id in Flatten(t.steps) || id in FlattenAttempts(t.steps)) && EndOf(spans, id) == end
  {
    MaxEnd(spans, FlattenAttempts(t.steps), MaxEnd(spans, Flatten(t.steps), EndOf(spans, t.id)))
  }

  function RunWait(spans: SpanMap, t: RunTree): nat {
    SumWaits(spans, Flatten(t.steps))
  }

  /** A Run's `execution_ns`: its extent less the known waits, never negative. */
  function RunExecution(spans: SpanMap, t: RunTree): nat {
    var rest := RunEnd(spans, t) - StartOf(spans, t.id) - RunWait(spans, t);
    if rest > 0 then rest else 0
  }

  /** The Attempts below some recorded Steps are those filed under the Steps flattening lists. */
  lemma {:induction false} AttemptsAreBelow(spans: SpanMap, nodes: seq<Node>)
    requires forall i | 0 <= i < |nodes| :: IsTree(spans, nodes[i])
    ensures forall a :: a in FlattenAttempts(nodes) <==>
              exists s :: s in Flatten(nodes) && IsKind(spans, a, AttemptKind) && ParentOf(spans, a, s)
    decreases nodes
  {
    if |nodes| > 0 {
      var n, rest := nodes[0], nodes[1..];
      AttemptsAreBelow(spans, n.children);
      AttemptsAreBelow(spans, rest);
      forall a
        ensures a in FlattenAttempts(nodes) <==> exists s :: s in Flatten(nodes) && IsKind(spans, a, AttemptKind) && ParentOf(spans, a, s)
      {
        assert a in n.attempts <==> IsKind(spans, a, AttemptKind) && ParentOf(spans, a, n.id);
        assert forall s :: s in Flatten(nodes) <==> s == n.id || s in Flatten(n.children) || s in Flatten(rest);
        assert n.id in Flatten(nodes);
      }
    }
  }

  lemma NoDupParts(a: seq<string>, b: seq<string>)
    requires NoDup(a + b)
    ensures NoDup(a) && NoDup(b) && forall x | x in a :: x !in b
  {
    assert forall i | 0 <= i < |a| :: (a + b)[i] == a[i];
    assert forall j | 0 <= j < |b| :: (a + b)[|a| + j] == b[j];
  }

  /** Attempts below different Steps differ. */
  lemma ApartByParent(spans: SpanMap, a: seq<string>, b: seq<string>, stepsA: seq<string>, stepsB: seq<string>)
    requires forall x | x in stepsA :: x !in stepsB
    requires forall x | x in a :: exists s :: s in stepsA && ParentOf(spans, x, s)
    requires forall x | x in b :: exists s :: s in stepsB && ParentOf(spans, x, s)
    ensures forall x | x in a :: x !in b
  {
  }

  lemma {:induction false} AttemptsOnce(spans: SpanMap, nodes: seq<Node>)
    requires (forall i | 0 <= i < |nodes| :: IsTree(spans, nodes[i])) && NoDup(Flatten(nodes))
    ensures NoDup(FlattenAttempts(nodes))
    decreases nodes
  {
    if |nodes| > 0 {
      var n, rest := nodes[0], nodes[1..];
      NoDupParts([n.id] + Flatten(n.children), Flatten(rest));
      NoDupParts([n.id], Flatten(n.children));
      AttemptsOnce(spans, n.children);
      AttemptsOnce(spans, rest);
      AttemptsAreBelow(spans, n.children);
      AttemptsAreBelow(spans, rest);
      forall x | x in n.attempts
        ensures exists s :: s in [n.id] && ParentOf(spans, x, s)
      {
        assert n.id in [n.id];
      }
      ApartByParent(spans, n.attempts, FlattenAttempts(n.children), [n.id], Flatten(n.children));
      NoDupConcat(n.attempts, FlattenAttempts(n.children));
      AttemptsApart(spans, n, rest);
      NoDupConcat(n.attempts + FlattenAttempts(n.children), FlattenAttempts(rest));
    }
  }

  lemma AttemptsApart(spans: SpanMap, n: Node, rest: seq<Node>)
    requires IsTree(spans, n) && forall i | 0 <= i < |rest| :: IsTree(spans, rest[i])
    requires forall x | x in [n.id] + Flatten(n.children) :: x !in Flatten(rest)
    ensures forall x | x in n.attempts + FlattenAttempts(n.children) :: x !in FlattenAttempts(rest)
  {
    AttemptsAreBelow(spans, n.children);
    AttemptsAreBelow(spans, rest);
    forall x | x in n.attempts + FlattenAttempts(n.children)
      ensures exists s :: s in [n.id] + Flatten(n.children) && ParentOf(spans, x, s)
    {
      if x in n.attempts {
        assert n.id in [n.id] + Flatten(n.children);
      } else {
        var s :| s in Flatten(n.children) && IsKind(spans, x, AttemptKind) && ParentOf(spans, x, s);
        assert s in [n.id] + Flatten(n.children);
      }
    }
    ApartByParent(spans, n.attempts + FlattenAttempts(n.children), FlattenAttempts(rest), [n.id] + Flatten(n.children), Flatten(rest));
  }

  /** An Attempt under a Step whose path ends at a Run. */
  ghost predicate AttemptIn(spans: SpanMap, a: string, run: string)
    requires Rooted(spans)
  {
    && IsKind(spans, a, AttemptKind) && spans[a].span.parentId.Some?
    && IsKind(spans, spans[a].span.parentId.value, StepKind) && Last(PathOf(spans, spans[a].span.parentId.value)) == run
  }

  /** A Run's tree holds each Attempt whose Step's path ends at that Run exactly once, and no other Attempt. */
  lemma AttemptsConserved(spans: SpanMap, t: RunTree)
    requires Rooted(spans) && IsKind(spans, t.id, RunKind) && IsRunTree(spans, t)
    ensures NoDup(FlattenAttempts(t.steps))
    ensures forall a :: a in FlattenAttempts(t.steps) <==> AttemptIn(spans, a, t.id)
  {
    RunTreeConserves(spans, t);
    AttemptsOnce(spans, t.steps);
    AttemptsAreBelow(spans, t.steps);
    forall a
      ensures a in FlattenAttempts(t.steps) <==> AttemptIn(spans, a, t.id)
    {
      if AttemptIn(spans, a, t.id) {
        assert ParentOf(spans, a, spans[a].span.parentId.value);
      }
    }
  }

  /** `end_ns` bounds every Step of the Run, and every Attempt of its Steps, however deeply nested. */
  lemma EndBoundsEverything(spans: SpanMap, t: RunTree)
    requires Rooted(spans) && IsKind(spans, t.id, RunKind) && IsRunTree(spans, t)
    ensures forall id | IsKind(spans, id, StepKind) && Last(PathOf(spans, id)) == t.id :: EndOf(spans, id) <= RunEnd(spans, t)
    ensures forall a | AttemptIn(spans, a, t.id) :: EndOf(spans, a) <= RunEnd(spans, t)
  {
    RunTreeConserves(spans, t);
    AttemptsConserved(spans, t);
  }

  // ---------------------------------------------------------------- waiting plus executing

  /** The instants after `lo`, up to `hi`. */
  function Instants(lo: int, hi: int): (r: set<int>)
    ensures forall t :: t in r <==> lo < t <= hi
    ensures |r| == if lo < hi then hi - lo else 0
    decreases hi - lo
  {
    if hi <= lo then {} else Instants(lo, hi - 1) + {hi}
  }

  /** The instants of a wait: after the paused Step ended, up to the resuming Step's start. */
  ghost function WaitInstants(spans: SpanMap, id: string): set<int> {
    match Original(spans, id)
    case None => {}
    case Some(original) => Instants(EndOf(spans, original), StartOf(spans, id))
  }

  lemma WaitIsItsInstants(spans: SpanMap, id: string)
    ensures |WaitInstants(spans, id)| == WaitOf(spans, id)
  {
  }

  ghost function AllInstants(spans: SpanMap, ids: seq<string>): set<int> {
    if |ids| == 0 then {} else AllInstants(spans, ids[..|ids| - 1]) + WaitInstants(spans, Last(ids))
  }

  /** No two of the waits share an instant. */
  ghost predicate DisjointWaits(spans: SpanMap, ids: seq<string>) {
    forall i, j | 0 <= i < j < |ids| :: WaitInstants(spans, ids[i]) !! WaitInstants(spans, ids[j])
  }

  ghost predicate WaitsAt(spans: SpanMap, id: string, t: int) {
    t in WaitInstants(spans, id)
  }

  ghost predicate WaitsSomewhere(spans: SpanMap, ids: seq<string>, t: int) {
    exists i | 0 <= i < |ids| :: WaitsAt(spans, ids[i], t)
  }

  lemma WaitsInFrontOrLast(spans: SpanMap, ids: seq<string>, t: int)
    requires |ids| > 0
    ensures WaitsSomewhere(spans, ids, t) <==> WaitsSomewhere(spans, ids[..|ids| - 1], t) || WaitsAt(spans, Last(ids), t)
  {
    var front := ids[..|ids| - 1];
    if i :| 0 <= i < |front| && WaitsAt(spans, front[i], t) {
      assert WaitsAt(spans, ids[i], t);
    }
    if i :| 0 <= i < |ids| && WaitsAt(spans, ids[i], t) {
      assert i < |front| ==> WaitsAt(spans, front[i], t);
    }
  }

  lemma {:induction false} InAllInstants(spans: SpanMap, ids: seq<string>, t: int)
    ensures t in AllInstants(spans, ids) <==> WaitsSomewhere(spans, ids, t)
  {
    if |ids| > 0 {
      InAllInstants(spans, ids[..|ids| - 1], t);
      WaitsInFrontOrLast(spans, ids, t);
    }
  }

  lemma LastIsApart(spans: SpanMap, ids: seq<string>, t: int)
    requires |ids| > 0 && DisjointWaits(spans, ids) && t in AllInstants(spans, ids[..|ids| - 1])
    ensures t !in WaitInstants(spans, Last(ids))
  {
    var front := ids[..|ids| - 1];
    InAllInstants(spans, front, t);
    var i :| 0 <= i < |front| && WaitsAt(spans, front[i], t);
    assert front[i] == ids[i];
    assert WaitInstants(spans, ids[i]) !! WaitInstants(spans, ids[|ids| - 1]);
  }

  lemma {:induction false} SumOfDisjointWaits(spans: SpanMap, ids: seq<string>)
    requires DisjointWaits(spans, ids)
    ensures |AllInstants(spans, ids)| == SumWaits(spans, ids)
  {
    if |ids| > 0 {
      var front := ids[..|ids| - 1];
      SumOfDisjointWaits(spans, front);
      WaitIsItsInstants(spans, Last(ids));
      forall t | t in AllInstants(spans, front)
        ensures t !in WaitInstants(spans, Last(ids))
      {
        LastIsApart(spans, ids, t);
      }
      assert AllInstants(spans, front) !! WaitInstants(spans, Last(ids));
    }
  }

  /** Each resumed Step's original is of the same Run, and Steps and their ends follow the Run's start. */
  ghost predicate WithinRun(spans: SpanMap, t: RunTree) {
    forall id | id in Flatten(t.steps) ::
      && StartOf(spans, t.id) <= StartOf(spans, id) <= EndOf(spans, id)
      && (Original(spans, id).Some? ==> Original(spans, id).value in Flatten(t.steps))
  }

  /**
   Waiting and executing add up to the Run's extent when its waits do not overlap, resume Steps of
   the same Run, and no Step starts before the Run.
   */
  lemma WaitPlusExecution(spans: SpanMap, t: RunTree)
    requires WithinRun(spans, t) && DisjointWaits(spans, Flatten(t.steps)) && StartOf(spans, t.id) <= EndOf(spans, t.id)
    ensures RunWait(spans, t) + RunExecution(spans, t) == RunEnd(spans, t) - StartOf(spans, t.id)
  {
    var ids := Flatten(t.steps);
    var lo, hi := StartOf(spans, t.id), RunEnd(spans, t);
    SumOfDisjointWaits(spans, ids);
    var extent := Instants(lo, hi);
    forall x | x in AllInstants(spans, ids)
      ensures x in extent
    {
      InAllInstants(spans, ids, x);
      var i :| 0 <= i < |ids| && WaitsAt(spans, ids[i], x);
      assert ids[i] in ids;
      var original := Original(spans, ids[i]).value;
      assert original in ids;
    }
    SubsetSize(AllInstants(spans, ids), extent);
  }

  /** Without such a condition the two need not add up: exactly when the waits exceed the extent. */
  lemma OvercountedWaits(spans: SpanMap, t: RunTree)
    requires StartOf(spans, t.id) <= EndOf(spans, t.id)
    ensures RunWait(spans, t) + RunExecution(spans, t) == RunEnd(spans, t) - StartOf(spans, t.id)
            <==> RunWait(spans, t) <= RunEnd(spans, t) - StartOf(spans, t.id)
    ensures RunWait(spans, t) + RunExecution(spans, t) >= RunEnd(spans, t) - StartOf(spans, t.id)
  {
  }
}

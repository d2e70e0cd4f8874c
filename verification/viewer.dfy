/**
 Rebuilding the executed call tree from a flat bag of accepted spans
 (src/cord_runtime/viewer.py, build_execution_tree). A record is named by its span id; every field
 it shows is a function of that span, so a tree of ids is the tree of records.
 */
module Viewer {
  import opened Basics
  import opened Spans
  import opened ArchiveQuery
  import opened Escalations

  /** A Step with its Attempts and the Steps of its child-graph calls. */
  datatype Node = Node(id: string, attempts: seq<string>, children: seq<Node>)

  datatype RunTree = RunTree(id: string, steps: seq<Node>)

  // ---------------------------------------------------------------- sorting by start time

  function StartOf(spans: SpanMap, id: string): nat {
    if id in spans then spans[id].span.start else 0
  }

  ghost predicate ByStart(spans: SpanMap, ids: seq<string>) {
    forall i, j | 0 <= i < j < |ids| :: StartOf(spans, ids[i]) <= StartOf(spans, ids[j])
  }

  function InsertByStart(spans: SpanMap, ids: seq<string>, id: string): (r: seq<string>)
    requires ByStart(spans, ids)
    ensures ByStart(spans, r)
    ensures forall x :: x in r <==> x in ids || x == id
    ensures NoDup(ids) && id !in ids ==> NoDup(r)
  {
    if |ids| == 0 || StartOf(spans, Last(ids)) <= StartOf(spans, id) then ids + [id]
    else
      var front := ids[..|ids| - 1];
      assert ids == front + [Last(ids)];
      var inserted := InsertByStart(spans, front, id);
      LastStaysLast(spans, ids, id, inserted);
      inserted + [Last(ids)]
  }

  lemma LastStaysLast(spans: SpanMap, ids: seq<string>, id: string, inserted: seq<string>)
    requires |ids| > 0 && ByStart(spans, ids) && StartOf(spans, id) <= StartOf(spans, Last(ids)) && ByStart(spans, inserted)
    requires forall x :: x in inserted <==> x in ids[..|ids| - 1] || x == id
    ensures ByStart(spans, inserted + [Last(ids)])
    ensures NoDup(ids) && id !in ids && NoDup(inserted) ==> NoDup(inserted + [Last(ids)])
  {
    if NoDup(ids) && id !in ids && NoDup(inserted) {
      assert Last(ids) in ids && Last(ids) !in inserted;
      NoDupConcat(inserted, [Last(ids)]);
    }
    forall i | 0 <= i < |inserted|
      ensures StartOf(spans, inserted[i]) <= StartOf(spans, Last(ids))
    {
      assert inserted[i] in inserted;
    }
  }

  /** Python's stable `list.sort(key=start)`. */
  function SortByStart(spans: SpanMap, ids: seq<string>): (r: seq<string>)
    ensures ByStart(spans, r)
    ensures forall x :: x in r <==> x in ids
    ensures NoDup(ids) ==> NoDup(r)
  {
    if |ids| == 0 then []
    else
      assert ids == ids[..|ids| - 1] + [Last(ids)];
      InsertByStart(spans, SortByStart(spans, ids[..|ids| - 1]), Last(ids))
  }

  /** With distinct start times there is one sorted order. */
  lemma {:induction false} SortedUnique(spans: SpanMap, a: seq<string>, b: seq<string>)
    requires NoDup(a) && NoDup(b) && ByStart(spans, a) && ByStart(spans, b)
    requires forall x :: x in a <==> x in b
    requires forall x, y | x in a && y in a && x != y :: StartOf(spans, x) != StartOf(spans, y)
    ensures a == b
  {
    FirstIsMember(a);
    FirstIsMember(b);
    if |a| > 0 && |b| > 0 {
      SmallestFirst(spans, a, b[0]);
      SmallestFirst(spans, b, a[0]);
      TailMembers(a);
      TailMembers(b);
      SortedUnique(spans, a[1..], b[1..]);
      assert a == [a[0]] + a[1..] && b == [b[0]] + b[1..];
    }
  }

  lemma SmallestFirst(spans: SpanMap, ids: seq<string>, x: string)
    requires ByStart(spans, ids) && x in ids
    ensures StartOf(spans, ids[0]) <= StartOf(spans, x)
  {
  }

  // ---------------------------------------------------------------- what a tree must be

  /** `ids` lists, once each and by start time, the spans of one kind directly under `parent`. */
  ghost predicate ListsUnder(spans: SpanMap, parent: string, kind: Kind, ids: seq<string>) {
    && NoDup(ids) && ByStart(spans, ids)
    && (forall x :: x in ids <==> IsKind(spans, x, kind) && ParentOf(spans, x, parent))
  }

  function Ids(nodes: seq<Node>): (ids: seq<string>)
    ensures |ids| == |nodes| && forall i | 0 <= i < |nodes| :: ids[i] == nodes[i].id
  {
    seq(|nodes|, i requires 0 <= i < |nodes| => nodes[i].id)
  }

  function RunIds(trees: seq<RunTree>): (ids: seq<string>)
    ensures |ids| == |trees| && forall i | 0 <= i < |trees| :: ids[i] == trees[i].id
  {
    seq(|trees|, i requires 0 <= i < |trees| => trees[i].id)
  }

  /** The tree below `n` is exactly the recorded one. */
  ghost predicate IsTree(spans: SpanMap, n: Node) {
    && ListsUnder(spans, n.id, AttemptKind, n.attempts)
    && ListsUnder(spans, n.id, StepKind, Ids(n.children))
    && (forall i | 0 <= i < |n.children| :: IsTree(spans, n.children[i]))
  }

  ghost predicate IsRunTree(spans: SpanMap, t: RunTree) {
    && ListsUnder(spans, t.id, StepKind, Ids(t.steps))
    && (forall i | 0 <= i < |t.steps| :: IsTree(spans, t.steps[i]))
  }

  ghost predicate ListsRuns(spans: SpanMap, ids: seq<string>) {
    NoDup(ids) && ByStart(spans, ids) && forall x :: x in ids <==> IsKind(spans, x, RunKind)
  }

  /** Every Run once, by start time, each with its recorded tree. */
  ghost predicate IsForest(spans: SpanMap, trees: seq<RunTree>) {
    && ListsRuns(spans, RunIds(trees))
    && (forall i | 0 <= i < |trees| :: IsRunTree(spans, trees[i]))
  }

  // ---------------------------------------------------------------- uniqueness

  ghost predicate StartsDiffer(spans: SpanMap, ids: seq<string>) {
    forall x, y | x in ids && y in ids && x != y :: StartOf(spans, x) != StartOf(spans, y)
  }

  /** No two Attempts of one Step, and no two Steps of one scope, start together. */
  ghost predicate TreeStartsDiffer(spans: SpanMap, n: Node) {
    && StartsDiffer(spans, n.attempts)
    && StartsDiffer(spans, Ids(n.children))
    && (forall i | 0 <= i < |n.children| :: TreeStartsDiffer(spans, n.children[i]))
  }

  ghost predicate ForestStartsDiffer(spans: SpanMap, trees: seq<RunTree>) {
    && StartsDiffer(spans, RunIds(trees))
    && (forall i | 0 <= i < |trees| ::
          StartsDiffer(spans, Ids(trees[i].steps)) && forall j | 0 <= j < |trees[i].steps| :: TreeStartsDiffer(spans, trees[i].steps[j]))
  }

  lemma {:induction false} TreesUnique(spans: SpanMap, a: seq<Node>, b: seq<Node>)
    requires Ids(a) == Ids(b)
    requires forall i | 0 <= i < |a| :: IsTree(spans, a[i]) && TreeStartsDiffer(spans, a[i])
    requires forall i | 0 <= i < |b| :: IsTree(spans, b[i])
    ensures a == b
    decreases a
  {
    assert |a| == |b|;
    forall i | 0 <= i < |a|
      ensures a[i] == b[i]
    {
      assert a[i].id == Ids(a)[i] == Ids(b)[i] == b[i].id;
      SortedUnique(spans, a[i].attempts, b[i].attempts);
      SortedUnique(spans, Ids(a[i].children), Ids(b[i].children));
      TreesUnique(spans, a[i].children, b[i].children);
    }
  }

  /** When start times differ, the tree depends on the spans alone, not on their order. */
  lemma ForestUnique(spans: SpanMap, a: seq<RunTree>, b: seq<RunTree>)
    requires IsForest(spans, a) && IsForest(spans, b) && ForestStartsDiffer(spans, a)
    ensures a == b
  {
    SortedUnique(spans, RunIds(a), RunIds(b));
    assert |a| == |b|;
    forall i | 0 <= i < |a|
      ensures a[i] == b[i]
    {
      assert a[i].id == RunIds(a)[i] == RunIds(b)[i] == b[i].id;
      SortedUnique(spans, Ids(a[i].steps), Ids(b[i].steps));
      TreesUnique(spans, a[i].steps, b[i].steps);
    }
  }

  // ---------------------------------------------------------------- conservation

  /** Every Step of some trees, depth first. */
  function Flatten(nodes: seq<Node>): seq<string> {
    if |nodes| == 0 then [] else [nodes[0].id] + Flatten(nodes[0].children) + Flatten(nodes[1..])
  }

  ghost predicate HasPath(spans: SpanMap, id: string) {
    exists p :: Chain(spans, p) && p[0] == id
  }

  /** Every Step has a path to a Run. */
  ghost predicate Rooted(spans: SpanMap) {
    forall id {:trigger HasPath(spans, id)} | IsKind(spans, id, StepKind) :: HasPath(spans, id)
  }

  lemma LegalIsRooted(spans: SpanMap)
    requires Legal(spans)
    ensures Rooted(spans)
  {
    forall id | IsKind(spans, id, StepKind)
      ensures HasPath(spans, id)
    {
      assert LegalSpan(spans, id);
    }
  }

  /** The path of a Step to its Run. */
  ghost function PathOf(spans: SpanMap, id: string): (p: seq<string>)
    requires Rooted(spans) && IsKind(spans, id, StepKind)
    ensures Chain(spans, p) && p[0] == id && |p| >= 2
  {
    assert HasPath(spans, id);
    var p :| Chain(spans, p) && p[0] == id;
    assert Last(p) != id;
    p
  }

  lemma PathOfParent(spans: SpanMap, id: string, up: string)
    requires Rooted(spans) && IsKind(spans, id, StepKind) && ParentOf(spans, id, up)
    ensures PathOf(spans, id)[1] == up
    ensures IsKind(spans, up, StepKind) ==> PathOf(spans, id)[1..] == PathOf(spans, up)
    ensures IsKind(spans, up, RunKind) ==> PathOf(spans, id) == [id, up]
  {
    var p := PathOf(spans, id);
    assert ParentOf(spans, p[0], p[1]);
    ChainSuffix(spans, p, 1);
    if IsKind(spans, up, StepKind) {
      ChainUnique(spans, p[1..], PathOf(spans, up));
    } else {
      assert Chain(spans, [up]);
      if IsKind(spans, up, RunKind) {
        ChainUnique(spans, p[1..], [up]);
        assert p == [p[0]] + p[1..];
      }
    }
  }

  /** The ancestor (or self) of a Step at a given distance from its Run, counting the Run as 1. */
  ghost predicate AncestorAt(spans: SpanMap, x: string, depth: nat, a: string)
    requires Rooted(spans)
  {
    IsKind(spans, x, StepKind) && depth > 0 && |PathOf(spans, x)| >= depth && PathOf(spans, x)[|PathOf(spans, x)| - depth] == a
  }

  lemma AncestorBelow(spans: SpanMap, x: string, depth: nat, n: string, children: seq<string>)
    requires Rooted(spans) && ListsUnder(spans, n, StepKind, children) && depth > 0
    ensures (exists c | c in children :: AncestorAt(spans, x, depth + 1, c)) <==> AncestorAt(spans, x, depth, n) && |PathOf(spans, x)| > depth
  {
    if IsKind(spans, x, StepKind) && |PathOf(spans, x)| > depth {
      var p := PathOf(spans, x);
      var i := |p| - depth - 1;
      assert IsKind(spans, p[i], StepKind) && ParentOf(spans, p[i], p[i + 1]);
      assert AncestorAt(spans, x, depth + 1, p[i]);
      assert p[i] in children <==> p[i + 1] == n;
    }
  }

  /** Recorded trees of distinct Steps at one depth. */
  ghost predicate Level(spans: SpanMap, nodes: seq<Node>, depth: nat)
    requires Rooted(spans)
  {
    && NoDup(Ids(nodes))
    && (forall i | 0 <= i < |nodes| ::
          IsTree(spans, nodes[i]) && IsKind(spans, nodes[i].id, StepKind) && |PathOf(spans, nodes[i].id)| == depth)
  }

  lemma LevelTail(spans: SpanMap, nodes: seq<Node>, depth: nat)
    requires Rooted(spans) && Level(spans, nodes, depth) && |nodes| > 0
    ensures Level(spans, nodes[1..], depth)
  {
    assert Ids(nodes[1..]) == Ids(nodes)[1..];
    TailMembers(Ids(nodes));
  }

  lemma LevelChildren(spans: SpanMap, n: Node, depth: nat)
    requires Rooted(spans) && IsTree(spans, n) && IsKind(spans, n.id, StepKind) && |PathOf(spans, n.id)| == depth
    ensures Level(spans, n.children, depth + 1)
  {
    forall i | 0 <= i < |n.children|
      ensures IsKind(spans, n.children[i].id, StepKind) && |PathOf(spans, n.children[i].id)| == depth + 1
    {
      assert Ids(n.children)[i] in Ids(n.children);
      PathOfParent(spans, n.children[i].id, n.id);
    }
  }

  /** Flattening lists exactly the Steps at or below the given ones, each once. */
  lemma {:induction false} FlattenIsBelow(spans: SpanMap, nodes: seq<Node>, depth: nat)
    requires Rooted(spans) && depth >= 2 && Level(spans, nodes, depth)
    ensures NoDup(Flatten(nodes))
    ensures forall x :: x in Flatten(nodes) <==> exists i | 0 <= i < |nodes| :: AncestorAt(spans, x, depth, nodes[i].id)
    decreases nodes
  {
    if |nodes| > 0 {
      var n := nodes[0];
      LevelChildren(spans, n, depth);
      FlattenIsBelow(spans, n.children, depth + 1);
      LevelTail(spans, nodes, depth);
      FlattenIsBelow(spans, nodes[1..], depth);
      forall x
        ensures x in Flatten(n.children) <==> AncestorAt(spans, x, depth, n.id) && |PathOf(spans, x)| > depth
      {
        AncestorBelow(spans, x, depth, n.id, Ids(n.children));
        InChildren(spans, x, depth + 1, n.children);
      }
      FlattenOne(spans, nodes, depth);
    }
  }

  lemma FlattenOne(spans: SpanMap, nodes: seq<Node>, depth: nat)
    requires Rooted(spans) && depth >= 2 && NoDup(Ids(nodes)) && |nodes| > 0
    requires IsKind(spans, nodes[0].id, StepKind) && |PathOf(spans, nodes[0].id)| == depth
    requires NoDup(Flatten(nodes[0].children)) && NoDup(Flatten(nodes[1..]))
    requires forall x :: x in Flatten(nodes[0].children) <==> AncestorAt(spans, x, depth, nodes[0].id) && |PathOf(spans, x)| > depth
    requires forall x :: x in Flatten(nodes[1..]) <==> exists i | 0 <= i < |nodes[1..]| :: AncestorAt(spans, x, depth, nodes[1..][i].id)
    ensures NoDup(Flatten(nodes))
    ensures forall x :: x in Flatten(nodes) <==> exists i | 0 <= i < |nodes| :: AncestorAt(spans, x, depth, nodes[i].id)
  {
    var n, rest := nodes[0], nodes[1..];
    var below, after := Flatten(n.children), Flatten(rest);
    assert AncestorAt(spans, n.id, depth, n.id);
    forall x | x in after
      ensures !AncestorAt(spans, x, depth, n.id)
    {
      var i :| 0 <= i < |rest| && AncestorAt(spans, x, depth, rest[i].id);
      assert Ids(nodes)[i + 1] == rest[i].id && Ids(nodes)[0] == n.id;
    }
    NoDupConcat([n.id], below);
    NoDupConcat([n.id] + below, after);
    forall x
      ensures x in Flatten(nodes) <==> exists i | 0 <= i < |nodes| :: AncestorAt(spans, x, depth, nodes[i].id)
    {
      if x in after {
        var i :| 0 <= i < |rest| && AncestorAt(spans, x, depth, rest[i].id);
        assert AncestorAt(spans, x, depth, nodes[i + 1].id);
      }
      forall i | 0 < i < |nodes|
        ensures AncestorAt(spans, x, depth, nodes[i].id) ==> x in after
      {
        assert nodes[i].id == rest[i - 1].id;
      }
    }
  }

  lemma InChildren(spans: SpanMap, x: string, depth: nat, children: seq<Node>)
    requires Rooted(spans)
    ensures (exists i | 0 <= i < |children| :: AncestorAt(spans, x, depth, children[i].id))
            <==> (exists c | c in Ids(children) :: AncestorAt(spans, x, depth, c))
  {
    if i :| 0 <= i < |children| && AncestorAt(spans, x, depth, children[i].id) {
      assert Ids(children)[i] in Ids(children);
    }
  }

  /** A Run's tree holds each Step whose path ends at that Run exactly once, and no other Step. */
  lemma RunTreeConserves(spans: SpanMap, t: RunTree)
    requires Rooted(spans) && IsKind(spans, t.id, RunKind) && IsRunTree(spans, t)
    ensures NoDup(Flatten(t.steps))
    ensures forall x :: x in Flatten(t.steps) <==> IsKind(spans, x, StepKind) && Last(PathOf(spans, x)) == t.id
  {
    forall i | 0 <= i < |t.steps|
      ensures IsKind(spans, t.steps[i].id, StepKind) && |PathOf(spans, t.steps[i].id)| == 2
    {
      assert Ids(t.steps)[i] in Ids(t.steps);
      PathOfParent(spans, t.steps[i].id, t.id);
    }
    assert Level(spans, t.steps, 2);
    FlattenIsBelow(spans, t.steps, 2);
    forall x
      ensures x in Flatten(t.steps) <==> IsKind(spans, x, StepKind) && Last(PathOf(spans, x)) == t.id
    {
      AncestorBelow(spans, x, 1, t.id, Ids(t.steps));
      InChildren(spans, x, 2, t.steps);
    }
  }
}

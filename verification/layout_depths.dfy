/**
 Breadth-first depths of a graph that may have cycles and several roots
 (src/cord_runtime/web/presentation.py, layout).
 */
module LayoutDepths {
  import opened Basics
  import opened Topology

  predicate HasEdge(edges: seq<Edge>, a: string, b: string) {
    Edge(a, b) in edges
  }

  ghost predicate Walk(edges: seq<Edge>, w: seq<string>) {
    |w| > 0 && forall i | 0 <= i < |w| - 1 :: HasEdge(edges, w[i], w[i + 1])
  }

  /** `w` leads from `a` to `b`. */
  ghost predicate Leads(edges: seq<Edge>, w: seq<string>, a: string, b: string) {
    Walk(edges, w) && w[0] == a && Last(w) == b
  }

  ghost predicate Within(edges: seq<Edge>, a: string, b: string, d: nat) {
    exists w :: Leads(edges, w, a, b) && |w| == d + 1
  }

  /** The shortest distance from `a` to `b` in the whole graph. */
  ghost predicate Distance(edges: seq<Edge>, a: string, b: string, d: nat) {
    Within(edges, a, b, d) && forall w | Leads(edges, w, a, b) :: |w| > d
  }

  ghost predicate Connected(edges: seq<Edge>, a: string, b: string) {
    exists w :: Leads(edges, w, a, b)
  }

  ghost predicate ClosedUnder(edges: seq<Edge>, c: set<string>) {
    forall a, b | a in c && HasEdge(edges, a, b) :: b in c
  }

  ghost predicate EdgesIn(edges: seq<Edge>, nodes: set<string>) {
    forall a, b | HasEdge(edges, a, b) :: a in nodes && b in nodes
  }

  type Depths = map<string, nat>

  lemma {:induction false} StaysInside(edges: seq<Edge>, c: set<string>, w: seq<string>, i: nat)
    requires ClosedUnder(edges, c) && Walk(edges, w) && i < |w| && w[i] in c
    ensures Last(w) in c
    decreases |w| - i
  {
    if i < |w| - 1 {
      assert HasEdge(edges, w[i], w[i + 1]);
      StaysInside(edges, c, w, i + 1);
    }
  }

  lemma WithinFurther(edges: seq<Edge>, a: string, b: string, d: nat, t: string)
    requires Within(edges, a, b, d) && HasEdge(edges, b, t)
    ensures Within(edges, a, t, d + 1)
  {
    var w :| Leads(edges, w, a, b) && |w| == d + 1;
    var v := w + [t];
    forall i | 0 <= i < |v| - 1
      ensures HasEdge(edges, v[i], v[i + 1])
    {
      if i < |w| - 1 {
        assert v[i] == w[i] && v[i + 1] == w[i + 1];
      } else {
        assert v[i] == b && v[i + 1] == t;
      }
    }
    assert Leads(edges, v, a, t);
  }

  // ---------------------------------------------------------------- one root

  /** Nodes newly reached from a root at depth `base`, with the ones still queued. */
  ghost predicate Reached(edges: seq<Edge>, c: set<string>, root: string, base: nat, depths: Depths) {
    && root in depths && root !in c && depths[root] == base
    && (forall n | n in depths && n !in c :: depths[n] >= base && Within(edges, root, n, depths[n] - base))
  }

  ghost predicate Queued(c: set<string>, depths: Depths, queue: seq<string>) {
    && (forall i | 0 <= i < |queue| :: queue[i] in depths && queue[i] !in c)
    && (forall i, j | 0 <= i < j < |queue| :: depths[queue[i]] <= depths[queue[j]] <= depths[queue[i]] + 1)
    && (|queue| > 0 ==> forall n | n in depths && n !in c :: depths[n] <= depths[queue[0]] + 1)
  }

  /** All edges of `n` have been followed. */
  ghost predicate Followed(edges: seq<Edge>, c: set<string>, depths: Depths, n: string)
    requires n in depths
  {
    forall t | HasEdge(edges, n, t) :: t in depths && (t !in c ==> depths[t] <= depths[n] + 1)
  }

  ghost predicate AllFollowed(edges: seq<Edge>, c: set<string>, depths: Depths, queue: seq<string>) {
    forall n | n in depths && n !in c && n !in queue :: Followed(edges, c, depths, n)
  }

  ghost predicate Searching(edges: seq<Edge>, c: set<string>, root: string, base: nat, depths: Depths, queue: seq<string>) {
    Reached(edges, c, root, base, depths) && Queued(c, depths, queue) && AllFollowed(edges, c, depths, queue)
  }

  lemma {:induction false} FollowedBounds(edges: seq<Edge>, c: set<string>, root: string, base: nat, depths: Depths, w: seq<string>, i: nat)
    requires Searching(edges, c, root, base, depths, []) && ClosedUnder(edges, c)
    requires Walk(edges, w) && w[0] == root && i < |w| && Last(w) !in c
    ensures w[i] in depths && w[i] !in c && depths[w[i]] <= base + i
    decreases i
  {
    if w[i] in c {
      StaysInside(edges, c, w, i);
    }
    if i > 0 {
      FollowedBounds(edges, c, root, base, depths, w, i - 1);
      assert HasEdge(edges, w[i - 1], w[i]) && Followed(edges, c, depths, w[i - 1]);
    }
  }

  /** Once the queue is empty, depths are shortest distances, and everything reachable has one. */
  lemma SearchIsShortest(edges: seq<Edge>, c: set<string>, root: string, base: nat, depths: Depths)
    requires Searching(edges, c, root, base, depths, []) && ClosedUnder(edges, c) && c <= depths.Keys
    ensures ClosedUnder(edges, depths.Keys)
    ensures forall n | n in depths && n !in c :: depths[n] >= base && Distance(edges, root, n, depths[n] - base)
  {
    forall n | n in depths && n !in c
      ensures depths[n] >= base && Distance(edges, root, n, depths[n] - base)
    {
      forall w | Leads(edges, w, root, n)
        ensures |w| > depths[n] - base
      {
        FollowedBounds(edges, c, root, base, depths, w, |w| - 1);
      }
    }
    forall a, b | a in depths && HasEdge(edges, a, b)
      ensures b in depths
    {
      if a !in c {
        assert Followed(edges, c, depths, a);
      }
    }
  }

  /** The edges of one node, in order. */
  function Targets(edges: seq<Edge>, node: string): (ts: seq<string>)
    ensures forall t :: t in ts <==> HasEdge(edges, node, t)
  {
    if |edges| == 0 then []
    else
      var before := Targets(edges[..|edges| - 1], node);
      assert edges == edges[..|edges| - 1] + [Last(edges)];
      if Last(edges).source == node then before + [Last(edges).target] else before
  }

  /** Depths only ever gain nodes. */
  ghost predicate Extends(before: Depths, after: Depths) {
    before.Keys <= after.Keys && forall n | n in before :: after[n] == before[n]
  }

  /** The node in hand counts as queued, in front, until all its targets are visited. */
  ghost predicate Visiting(edges: seq<Edge>, c: set<string>, root: string, base: nat, depths: Depths, node: string, queue: seq<string>) {
    Searching(edges, c, root, base, depths, [node] + queue)
  }

  lemma QueueGrows(c: set<string>, depths: Depths, q: seq<string>, t: string)
    requires Queued(c, depths, q) && |q| > 0 && t !in depths && t !in c
    ensures Queued(c, depths[t := depths[q[0]] + 1], q + [t])
  {
    var after, r := depths[t := depths[q[0]] + 1], q + [t];
    forall i | 0 <= i < |r|
      ensures r[i] in after && r[i] !in c && after[q[0]] <= after[r[i]] <= after[q[0]] + 1
    {
      if i < |q| {
        assert r[i] == q[i];
        assert i > 0 ==> depths[q[0]] <= depths[q[i]];
      }
    }
    forall i, j | 0 <= i < j < |r|
      ensures after[r[i]] <= after[r[j]] <= after[r[i]] + 1
    {
      if j < |q| {
        assert r[i] == q[i] && r[j] == q[j];
      }
    }
  }

  lemma FollowedStays(edges: seq<Edge>, c: set<string>, depths: Depths, q: seq<string>, t: string, d: nat)
    requires AllFollowed(edges, c, depths, q) && t !in depths
    ensures AllFollowed(edges, c, depths[t := d], q + [t])
  {
    forall n | n in depths[t := d] && n !in c && n !in q + [t]
      ensures Followed(edges, c, depths[t := d], n)
    {
      assert Followed(edges, c, depths, n);
    }
  }

  /** One target of the node in hand: a new one is queued behind everything. */
  lemma VisitTarget(edges: seq<Edge>, c: set<string>, root: string, base: nat, depths: Depths, node: string, queue: seq<string>, t: string)
    requires Visiting(edges, c, root, base, depths, node, queue) && HasEdge(edges, node, t) && t !in depths && c <= depths.Keys
    ensures node in depths && Visiting(edges, c, root, base, depths[t := depths[node] + 1], node, queue + [t])
  {
    var q := [node] + queue;
    assert q[0] == node && [node] + (queue + [t]) == q + [t];
    WithinFurther(edges, root, node, depths[node] - base, t);
    QueueGrows(c, depths, q, t);
    FollowedStays(edges, c, depths, q, t, depths[node] + 1);
  }

  /** A node whose targets are all visited leaves the queue. */
  lemma LeaveQueue(edges: seq<Edge>, c: set<string>, root: string, base: nat, depths: Depths, node: string, queue: seq<string>)
    requires Visiting(edges, c, root, base, depths, node, queue)
    requires forall t | HasEdge(edges, node, t) :: t in depths
    ensures Searching(edges, c, root, base, depths, queue)
  {
    var q := [node] + queue;
    assert q[0] == node && forall i | 0 <= i < |queue| :: queue[i] == q[i + 1];
    assert |queue| > 0 ==> depths[q[0]] <= depths[q[1]];
    forall n | n in depths && n !in c && n !in queue
      ensures Followed(edges, c, depths, n)
    {
      if n != node {
        assert n !in q;
      }
    }
  }

  /** Breadth-first search from one root that no earlier search has reached. */
  method Search(nodes: set<string>, edges: seq<Edge>, before: Depths, root: string, base: nat) returns (depths: Depths)
    requires root in nodes && root !in before && before.Keys <= nodes && ClosedUnder(edges, before.Keys)
    requires EdgesIn(edges, nodes)
    ensures Extends(before, depths) && depths.Keys <= nodes && root in depths && depths[root] == base && ClosedUnder(edges, depths.Keys)
    ensures forall n | n in depths && n !in before :: depths[n] >= base && Distance(edges, root, n, depths[n] - base)
  {
    depths := before[root := base];
    SearchStarts(edges, before, root, base);
    ghost var start := depths;
    depths := Drain(nodes, edges, before.Keys, root, base, depths, [root]);
    ExtendsTwice(before, start, depths);
    SearchIsShortest(edges, before.Keys, root, base, depths);
  }

  /** The queue loop. */
  method Drain(nodes: set<string>, edges: seq<Edge>, ghost c: set<string>, ghost root: string, ghost base: nat, start: Depths, first: seq<string>)
    returns (depths: Depths)
    requires c <= start.Keys <= nodes && EdgesIn(edges, nodes) && Searching(edges, c, root, base, start, first)
    ensures Extends(start, depths) && depths.Keys <= nodes && Searching(edges, c, root, base, depths, [])
  {
    depths := start;
    var queue := first;
    while |queue| > 0
      invariant Extends(start, depths) && depths.Keys <= nodes && Searching(edges, c, root, base, depths, queue)
      decreases |nodes - depths.Keys|, |queue|
    {
      var node := queue[0];
      assert queue == [node] + queue[1..];
      ghost var reached := depths;
      depths, queue := Visit(nodes, edges, c, root, base, depths, node, queue[1..]);
      ExtendsTwice(start, reached, depths);
    }
  }

  lemma ExtendsTwice(a: Depths, b: Depths, c: Depths)
    requires Extends(a, b) && Extends(b, c)
    ensures Extends(a, c)
  {
  }

  lemma SearchStarts(edges: seq<Edge>, before: Depths, root: string, base: nat)
    requires root !in before
    ensures Searching(edges, before.Keys, root, base, before[root := base], [root])
  {
    assert Leads(edges, [root], root, root);
  }

  lemma FewerUnvisited(nodes: set<string>, reached: Depths, depths: Depths)
    requires reached.Keys <= depths.Keys <= nodes && depths.Keys != reached.Keys
    ensures |nodes - depths.Keys| < |nodes - reached.Keys|
  {
    SubsetSize(nodes - depths.Keys, nodes - reached.Keys);
    var x :| x in depths.Keys && x !in reached.Keys;
    assert x in nodes - reached.Keys && x !in nodes - depths.Keys;
  }

  method Visit(nodes: set<string>, edges: seq<Edge>, ghost c: set<string>, ghost root: string, ghost base: nat, reached: Depths, node: string, rest: seq<string>)
    returns (depths: Depths, queue: seq<string>)
    requires c <= reached.Keys <= nodes && Visiting(edges, c, root, base, reached, node, rest)
    requires EdgesIn(edges, nodes)
    ensures Extends(reached, depths) && depths.Keys <= nodes && Searching(edges, c, root, base, depths, queue)
    ensures |nodes - depths.Keys| < |nodes - reached.Keys| || (depths == reached && queue == rest)
  {
    depths, queue := reached, rest;
    var targets := Targets(edges, node);
    for i := 0 to |targets|
      invariant Extends(reached, depths) && depths.Keys <= nodes && Visiting(edges, c, root, base, depths, node, queue)
      invariant forall j | 0 <= j < i :: targets[j] in depths
      invariant depths.Keys != reached.Keys || (depths == reached && queue == rest)
    {
      var target := targets[i];
      assert target in targets && HasEdge(edges, node, target);
      if target !in depths {
        VisitTarget(edges, c, root, base, depths, node, queue, target);
        depths := depths[target := depths[node] + 1];
        queue := queue + [target];
        assert target in depths.Keys && target !in reached.Keys;
      }
    }
    AllVisited(edges, node, targets, depths);
    LeaveQueue(edges, c, root, base, depths, node, queue);
    if depths.Keys != reached.Keys {
      FewerUnvisited(nodes, reached, depths);
    }
  }

  lemma AllVisited(edges: seq<Edge>, node: string, targets: seq<string>, depths: Depths)
    requires targets == Targets(edges, node) && forall j | 0 <= j < |targets| :: targets[j] in depths
    ensures forall t | HasEdge(edges, node, t) :: t in depths
  {
    forall t | HasEdge(edges, node, t)
      ensures t in depths
    {
      assert t in targets;
    }
  }
}

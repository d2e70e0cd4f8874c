/** Rows of a drawing: the depth of every node over all roots (src/cord_runtime/web/presentation.py, layout). */
module Layout {
  import opened Basics
  import opened Topology
  import opened LayoutDepths

  function NodeIds(s: Structure): (ids: seq<string>)
    ensures |ids| == |s.nodes| && forall i | 0 <= i < |ids| :: ids[i] == s.nodes[i].id
  {
    seq(|s.nodes|, i requires 0 <= i < |s.nodes| => s.nodes[i].id)
  }

  /** Unique node ids; edges, joins and entry nodes in range. */
  ghost predicate InRange(s: Structure, edges: seq<Edge>) {
    && NoDup(NodeIds(s))
    && (forall e | e in edges :: e.source in NodeIds(s) && e.target in NodeIds(s))
    && (forall n | n in s.entryNodes :: n in NodeIds(s))
  }

  /** Roots in the order they are tried: entry nodes first, then any node not reached yet. */
  function Roots(s: Structure): seq<string> {
    s.entryNodes + NodeIds(s)
  }

  // ---------------------------------------------------------------- depths over all roots

  /** `max(depths.values())`. */
  method Deepest(depths: Depths) returns (d: nat)
    requires |depths| > 0
    ensures exists n :: n in depths && depths[n] == d
    ensures forall n | n in depths :: depths[n] <= d
  {
    var first :| first in depths;
    d := depths[first];
    var left := depths.Keys;
    while left != {}
      invariant left <= depths.Keys && exists n :: n in depths && depths[n] == d
      invariant forall n | n in depths && n !in left :: depths[n] <= d
      decreases left
    {
      var n :| n in left;
      left := left - {n};
      if depths[n] > d {
        d := depths[n];
      }
    }
  }

  /** The first of `roots` that leads to `n`. */
  ghost predicate FirstToReach(edges: seq<Edge>, roots: seq<string>, k: nat, n: string) {
    && k < |roots| && Connected(edges, roots[k], n)
    && (forall j | 0 <= j < k :: !Connected(edges, roots[j], n))
  }

  /**
   `n` stands below the first root that reaches it, by its shortest distance from there. That root
   stands one row below everything earlier roots reach, or on top.
   */
  ghost predicate RightDepth(edges: seq<Edge>, roots: seq<string>, depths: Depths, n: string) {
    && n in depths
    && exists k: nat :: FirstToReach(edges, roots, k, n) && BelowRoot(edges, roots, depths, k, n)
  }

  ghost predicate BelowRoot(edges: seq<Edge>, roots: seq<string>, depths: Depths, k: nat, n: string)
    requires n in depths && k < |roots|
  {
    && roots[k] in depths && FirstToReach(edges, roots, k, roots[k])
    && depths[n] >= depths[roots[k]] && Distance(edges, roots[k], n, depths[n] - depths[roots[k]])
    && RootRow(edges, roots, depths, k)
  }

  /** The row of a root, from the nodes that earlier roots reach. */
  ghost predicate RootRow(edges: seq<Edge>, roots: seq<string>, depths: Depths, k: nat)
    requires k < |roots| && roots[k] in depths
  {
    && (forall m | m in depths && ReachedBefore(edges, roots, k, m) :: depths[m] < depths[roots[k]])
    && (depths[roots[k]] > 0 ==> exists m :: m in depths && ReachedBefore(edges, roots, k, m) && depths[m] == depths[roots[k]] - 1)
  }

  ghost predicate ReachedBefore(edges: seq<Edge>, roots: seq<string>, k: nat, m: string)
    requires k <= |roots|
  {
    exists j | 0 <= j < k :: Connected(edges, roots[j], m)
  }

  /** After the first `i` roots: exactly what they reach has a depth, and the right one. */
  ghost predicate Tried(edges: seq<Edge>, roots: seq<string>, i: nat, depths: Depths)
    requires i <= |roots|
  {
    && ClosedUnder(edges, depths.Keys)
    && (forall n :: n in depths <==> ReachedBefore(edges, roots, i, n))
    && (forall n | n in depths :: RightDepth(edges, roots, depths, n))
  }

  lemma ConnectedSelf(edges: seq<Edge>, n: string)
    ensures Connected(edges, n, n)
  {
    assert Leads(edges, [n], n, n);
  }

  lemma ConnectedStays(edges: seq<Edge>, c: set<string>, a: string, n: string)
    requires ClosedUnder(edges, c) && a in c && Connected(edges, a, n)
    ensures n in c
  {
    var w :| Leads(edges, w, a, n);
    StaysInside(edges, c, w, 0);
  }

  lemma DistanceConnects(edges: seq<Edge>, a: string, n: string, d: nat)
    requires Distance(edges, a, n, d)
    ensures Connected(edges, a, n)
  {
  }

  lemma ConnectedFurther(edges: seq<Edge>, a: string, b: string, c: string)
    requires Connected(edges, a, b) && Connected(edges, b, c)
    ensures Connected(edges, a, c)
  {
    var v :| Leads(edges, v, a, b);
    var w :| Leads(edges, w, b, c);
    var u := v + w[1..];
    forall i | 0 <= i < |u| - 1
      ensures HasEdge(edges, u[i], u[i + 1])
    {
      if i < |v| - 1 {
        assert u[i] == v[i] && u[i + 1] == v[i + 1];
      } else {
        assert u[i] == w[i - |v| + 1] && u[i + 1] == w[i - |v| + 2];
      }
    }
    assert Leads(edges, u, a, c);
  }

  lemma EarlierReached(edges: seq<Edge>, roots: seq<string>, k: nat, i: nat, m: string)
    requires k <= i <= |roots| && ReachedBefore(edges, roots, k, m)
    ensures ReachedBefore(edges, roots, i, m)
  {
  }

  lemma NothingNew(edges: seq<Edge>, roots: seq<string>, i: nat, depths: Depths, n: string)
    requires i < |roots| && Tried(edges, roots, i, depths) && roots[i] in depths
    ensures n in depths <==> ReachedBefore(edges, roots, i + 1, n)
  {
    if ReachedBefore(edges, roots, i + 1, n) && n !in depths {
      ConnectedStays(edges, depths.Keys, roots[i], n);
    }
  }

  /** A root that an earlier one reached adds nothing. */
  lemma TriedSame(edges: seq<Edge>, roots: seq<string>, i: nat, depths: Depths)
    requires i < |roots| && Tried(edges, roots, i, depths) && roots[i] in depths
    ensures Tried(edges, roots, i + 1, depths)
  {
    forall n
      ensures n in depths <==> ReachedBefore(edges, roots, i + 1, n)
    {
      NothingNew(edges, roots, i, depths, n);
    }
  }

  /** What one search adds to what earlier ones found. */
  ghost predicate Added(edges: seq<Edge>, root: string, base: nat, before: Depths, depths: Depths) {
    && root !in before && Extends(before, depths) && root in depths && depths[root] == base && ClosedUnder(edges, depths.Keys)
    && (forall n | n in depths && n !in before :: depths[n] >= base && Distance(edges, root, n, depths[n] - base))
    && (forall m | m in before :: before[m] < base)
    && (base > 0 ==> exists m :: m in before && before[m] == base - 1)
  }

  lemma OwnerIsEarlier(edges: seq<Edge>, roots: seq<string>, k: nat, i: nat, n: string)
    requires i <= |roots| && FirstToReach(edges, roots, k, n) && ReachedBefore(edges, roots, i, n)
    ensures k < i
  {
  }

  lemma BelowStays(edges: seq<Edge>, roots: seq<string>, before: Depths, depths: Depths, k: nat, n: string)
    requires k < |roots| && n in before && BelowRoot(edges, roots, before, k, n) && Extends(before, depths)
    requires roots[k] in depths && RootRow(edges, roots, depths, k)
    ensures BelowRoot(edges, roots, depths, k, n)
  {
    assert depths[n] == before[n] && depths[roots[k]] == before[roots[k]];
  }

  lemma OldDepthStays(edges: seq<Edge>, roots: seq<string>, i: nat, before: Depths, depths: Depths, base: nat, n: string)
    requires i < |roots| && Tried(edges, roots, i, before) && Added(edges, roots[i], base, before, depths) && n in before
    ensures RightDepth(edges, roots, depths, n)
  {
    assert RightDepth(edges, roots, before, n) && ReachedBefore(edges, roots, i, n);
    var k: nat :| FirstToReach(edges, roots, k, n) && BelowRoot(edges, roots, before, k, n);
    OwnerIsEarlier(edges, roots, k, i, n);
    RootRowStays(edges, roots, i, before, depths, base, k);
    BelowStays(edges, roots, before, depths, k, n);
  }

  lemma RootRowStays(edges: seq<Edge>, roots: seq<string>, i: nat, before: Depths, depths: Depths, base: nat, k: nat)
    requires k <= i < |roots| && Tried(edges, roots, i, before) && Added(edges, roots[i], base, before, depths)
    requires roots[k] in before && RootRow(edges, roots, before, k)
    ensures RootRow(edges, roots, depths, k)
  {
    forall m | ReachedBefore(edges, roots, k, m)
      ensures m in before && depths[m] == before[m]
    {
      EarlierReached(edges, roots, k, i, m);
    }
    if depths[roots[k]] > 0 {
      var m :| m in before && ReachedBefore(edges, roots, k, m) && before[m] == before[roots[k]] - 1;
      assert m in depths;
    }
  }

  lemma NewDepthIsRight(edges: seq<Edge>, roots: seq<string>, i: nat, before: Depths, depths: Depths, base: nat, n: string)
    requires i < |roots| && Tried(edges, roots, i, before) && Added(edges, roots[i], base, before, depths) && n in depths && n !in before
    ensures RightDepth(edges, roots, depths, n)
  {
    ConnectedSelf(edges, roots[i]);
    assert forall j | 0 <= j < i :: !Connected(edges, roots[j], n) by {
      assert !ReachedBefore(edges, roots, i, n);
    }
    assert forall j | 0 <= j < i :: !Connected(edges, roots[j], roots[i]) by {
      assert !ReachedBefore(edges, roots, i, roots[i]);
    }
    DistanceConnects(edges, roots[i], n, depths[n] - base);
    assert RootRow(edges, roots, depths, i);
    assert BelowRoot(edges, roots, depths, i, n);
  }

  lemma TriedNext(edges: seq<Edge>, roots: seq<string>, i: nat, before: Depths, depths: Depths, base: nat)
    requires i < |roots| && Tried(edges, roots, i, before) && Added(edges, roots[i], base, before, depths)
    ensures Tried(edges, roots, i + 1, depths)
  {
    forall n
      ensures n in depths <==> ReachedBefore(edges, roots, i + 1, n)
    {
      NewlyReached(edges, roots, i, before, depths, base, n);
    }
    forall n | n in depths
      ensures RightDepth(edges, roots, depths, n)
    {
      if n in before {
        OldDepthStays(edges, roots, i, before, depths, base, n);
      } else {
        NewDepthIsRight(edges, roots, i, before, depths, base, n);
      }
    }
  }

  lemma NewlyReached(edges: seq<Edge>, roots: seq<string>, i: nat, before: Depths, depths: Depths, base: nat, n: string)
    requires i < |roots| && Tried(edges, roots, i, before) && Added(edges, roots[i], base, before, depths)
    ensures n in depths <==> ReachedBefore(edges, roots, i + 1, n)
  {
    if n in before {
      assert ReachedBefore(edges, roots, i, n);
      EarlierReached(edges, roots, i, i + 1, n);
    } else if n in depths {
      DistanceConnects(edges, roots[i], n, depths[n] - base);
    } else if ReachedBefore(edges, roots, i + 1, n) {
      assert !ReachedBefore(edges, roots, i, n);
      var j :| 0 <= j < i + 1 && Connected(edges, roots[j], n);
      assert j == i;
      ConnectedStays(edges, depths.Keys, roots[i], n);
    }
  }

  /** Depths of every node: each below the first root that reaches it, by its shortest distance. */
  method AssignDepths(s: Structure, edges: seq<Edge>) returns (depths: Depths)
    requires InRange(s, edges)
    ensures depths.Keys == Elements(NodeIds(s)) && Tried(edges, Roots(s), |Roots(s)|, depths)
  {
    depths := map[];
    var roots, nodes := Roots(s), Elements(NodeIds(s));
    RootsInRange(s, edges);
    for i := 0 to |roots|
      invariant Tried(edges, roots, i, depths) && depths.Keys <= nodes
    {
      if roots[i] in depths {
        TriedSame(edges, roots, i, depths);
        continue;
      }
      var base := 0;
      if |depths| > 0 {
        var deepest := Deepest(depths);
        base := deepest + 1;
      }
      ghost var before := depths;
      depths := Search(nodes, edges, depths, roots[i], base);
      TriedNext(edges, roots, i, before, depths, base);
    }
    AllTried(s, edges, depths);
  }

  lemma RootsInRange(s: Structure, edges: seq<Edge>)
    requires InRange(s, edges)
    ensures forall i | 0 <= i < |Roots(s)| :: Roots(s)[i] in Elements(NodeIds(s))
    ensures EdgesIn(edges, Elements(NodeIds(s)))
  {
    forall i | 0 <= i < |Roots(s)|
      ensures Roots(s)[i] in Elements(NodeIds(s))
    {
      if i < |s.entryNodes| {
        assert s.entryNodes[i] in s.entryNodes;
      }
    }
  }

  lemma AllTried(s: Structure, edges: seq<Edge>, depths: Depths)
    requires Tried(edges, Roots(s), |Roots(s)|, depths) && depths.Keys <= Elements(NodeIds(s))
    ensures depths.Keys == Elements(NodeIds(s))
  {
    forall n | n in NodeIds(s)
      ensures n in depths
    {
      var i :| 0 <= i < |NodeIds(s)| && NodeIds(s)[i] == n;
      assert Roots(s)[|s.entryNodes| + i] == n;
      ConnectedSelf(edges, n);
      assert ReachedBefore(edges, Roots(s), |Roots(s)|, n);
    }
  }

  // ---------------------------------------------------------------- no row is empty

  lemma DistanceUnique(edges: seq<Edge>, a: string, b: string, d: nat, e: nat)
    requires Distance(edges, a, b, d) && Distance(edges, a, b, e)
    ensures d == e
  {
    var v :| Leads(edges, v, a, b) && |v| == d + 1;
    var w :| Leads(edges, w, a, b) && |w| == e + 1;
  }

  /** The node before the last on a shortest path is one step nearer. */
  lemma Nearer(edges: seq<Edge>, a: string, b: string, d: nat) returns (m: string)
    requires Distance(edges, a, b, d) && d > 0
    ensures Distance(edges, a, m, d - 1) && HasEdge(edges, m, b)
  {
    var w :| Leads(edges, w, a, b) && |w| == d + 1;
    m := w[d - 1];
    assert Leads(edges, w[..d], a, m) && |w[..d]| == d;
    forall v | Leads(edges, v, a, m)
      ensures |v| > d - 1
    {
      assert Within(edges, a, m, |v| - 1);
      WithinFurther(edges, a, m, |v| - 1, b);
    }
  }

  /** Above every node that is not in the top row there is another, one row up. */
  lemma RowAbove(edges: seq<Edge>, roots: seq<string>, depths: Depths, n: string) returns (m: string)
    requires Tried(edges, roots, |roots|, depths) && n in depths && depths[n] > 0
    ensures m in depths && depths[m] == depths[n] - 1
  {
    assert RightDepth(edges, roots, depths, n);
    var k: nat :| FirstToReach(edges, roots, k, n) && BelowRoot(edges, roots, depths, k, n);
    var d := depths[n] - depths[roots[k]];
    if d == 0 {
      m :| m in depths && ReachedBefore(edges, roots, k, m) && depths[m] == depths[roots[k]] - 1;
    } else {
      m := OneStepUp(edges, roots, depths, k, n, d);
    }
  }

  lemma OneStepUp(edges: seq<Edge>, roots: seq<string>, depths: Depths, k: nat, n: string, d: nat) returns (m: string)
    requires Tried(edges, roots, |roots|, depths) && FirstToReach(edges, roots, k, n) && d > 0 && n in depths
    requires roots[k] in depths && Distance(edges, roots[k], n, d)
    ensures m in depths && depths[m] == depths[roots[k]] + d - 1
  {
    m := Nearer(edges, roots[k], n, d);
    DistanceConnects(edges, roots[k], m, d - 1);
    assert ReachedBefore(edges, roots, |roots|, m);
    SameRoot(edges, roots, depths, k, n, m);
    var j: nat :| FirstToReach(edges, roots, j, m) && BelowRoot(edges, roots, depths, j, m);
    assert j == k;
    DistanceUnique(edges, roots[k], m, d - 1, depths[m] - depths[roots[k]]);
  }

  /** A node on the way to `n` has the same first root. */
  lemma SameRoot(edges: seq<Edge>, roots: seq<string>, depths: Depths, k: nat, n: string, m: string)
    requires FirstToReach(edges, roots, k, n) && Connected(edges, roots[k], m) && HasEdge(edges, m, n)
    requires m in depths && RightDepth(edges, roots, depths, m)
    ensures forall j: nat | FirstToReach(edges, roots, j, m) :: j == k
  {
    assert Leads(edges, [m, n], m, n);
    forall j: nat | FirstToReach(edges, roots, j, m)
      ensures j == k
    {
      ConnectedFurther(edges, roots[j], m, n);
    }
  }

  lemma {:induction false} NoEmptyRow(edges: seq<Edge>, roots: seq<string>, depths: Depths, n: string, d: nat)
    requires Tried(edges, roots, |roots|, depths) && n in depths && d <= depths[n]
    ensures exists m :: m in depths && depths[m] == d
    decreases depths[n]
  {
    if d < depths[n] {
      var m := RowAbove(edges, roots, depths, n);
      NoEmptyRow(edges, roots, depths, m, d);
    }
  }
}

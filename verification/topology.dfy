/**
 References between the graphs of one topology document: the closure a viewer may expand
 (src/cord_runtime/viewer.py, _referenced_subgraphs) and the expansion of possibly cyclic references
 into a finite nest of entries (src/cord_runtime/web/presentation.py, expansions).
 */
module Topology {
  import opened Basics

  datatype Node = Node(id: string, subgraph: Option<string>)

  datatype Edge = Edge(source: string, target: string)

  datatype Structure = Structure(nodes: seq<Node>, edges: seq<Edge>, entryNodes: seq<string>)

  /** The document's graphs by address. */
  type Document = map<string, Structure>

  // ---------------------------------------------------------------- the closure

  predicate Refers(s: Structure, address: string) {
    exists i | 0 <= i < |s.nodes| :: s.nodes[i].subgraph == Some(address)
  }

  /** One or more `subgraphId` hops inside the document, the first from `s`. */
  ghost predicate Hops(doc: Document, s: Structure, p: seq<string>) {
    && |p| > 0 && Refers(s, p[0])
    && (forall i | 0 <= i < |p| :: p[i] in doc)
    && (forall i | 0 <= i < |p| - 1 :: Refers(doc[p[i]], p[i + 1]))
  }

  ghost predicate Reachable(doc: Document, s: Structure, address: string) {
    exists p :: Hops(doc, s, p) && Last(p) == address
  }

  /** Every in-document reference of `s` is among `found`. */
  ghost predicate Closed(doc: Document, s: Structure, found: Document) {
    forall i | 0 <= i < |s.nodes| :: Kept(doc, s.nodes[i].subgraph, found)
  }

  predicate Kept(doc: Document, subgraph: Option<string>, found: Document) {
    subgraph.Some? && subgraph.value in doc ==> subgraph.value in found
  }

  ghost predicate Found(doc: Document, s: Structure, found: Document) {
    forall address | address in found :: address in doc && found[address] == doc[address] && Reachable(doc, s, address)
  }

  lemma HopFurther(doc: Document, s: Structure, via: string, address: string)
    requires Reachable(doc, s, via) && via in doc && address in doc && Refers(doc[via], address)
    ensures Reachable(doc, s, address)
  {
    var p :| Hops(doc, s, p) && Last(p) == via;
    assert Hops(doc, s, p + [address]);
    assert Last(p + [address]) == address;
  }

  lemma HopFirst(doc: Document, s: Structure, address: string)
    requires address in doc && Refers(s, address)
    ensures Reachable(doc, s, address)
  {
    assert Hops(doc, s, [address]);
    assert Last([address]) == address;
  }

  lemma ClosedKeeps(doc: Document, t: Structure, found: Document, address: string)
    requires Closed(doc, t, found) && Refers(t, address) && address in doc
    ensures address in found
  {
    var i :| 0 <= i < |t.nodes| && t.nodes[i].subgraph == Some(address);
    assert Kept(doc, t.nodes[i].subgraph, found);
  }

  lemma {:induction false} ClosedHoldsAll(doc: Document, s: Structure, found: Document, p: seq<string>)
    requires Hops(doc, s, p) && Closed(doc, s, found)
    requires forall address | address in found :: address in doc && Closed(doc, doc[address], found)
    ensures Last(p) in found
    decreases |p|
  {
    if |p| == 1 {
      ClosedKeeps(doc, s, found, p[0]);
    } else {
      var front := p[..|p| - 1];
      ClosedHoldsAll(doc, s, found, front);
      assert Refers(doc[p[|p| - 2]], p[|p| - 1]);
      ClosedKeeps(doc, doc[p[|p| - 2]], found, Last(p));
    }
  }

  /** A structure still to be looked at: the selected one, or one just found. */
  ghost predicate Pending(doc: Document, s: Structure, found: Document, t: Structure) {
    t == s || exists address | address in found :: found[address] == t
  }

  ghost predicate Work(doc: Document, s: Structure, found: Document, pending: seq<Structure>) {
    && Found(doc, s, found)
    && (forall i | 0 <= i < |pending| :: Pending(doc, s, found, pending[i]))
    && (s in pending || Closed(doc, s, found))
    && (forall address | address in found :: Handled(doc, found, pending, address))
  }

  ghost predicate Handled(doc: Document, found: Document, pending: seq<Structure>, address: string)
    requires address in found
  {
    found[address] in pending || Closed(doc, found[address], found)
  }

  lemma RefersReach(doc: Document, s: Structure, found: Document, t: Structure, address: string)
    requires Found(doc, s, found) && Pending(doc, s, found, t) && address in doc && Refers(t, address)
    ensures Reachable(doc, s, address)
  {
    if t == s {
      HopFirst(doc, s, address);
    } else {
      var via :| via in found && found[via] == t;
      HopFurther(doc, s, via, address);
    }
  }

  /** Exactly the in-document addresses reachable by one or more hops, each with its structure. */
  method ReferencedSubgraphs(doc: Document, structure: Structure) returns (found: Document)
    ensures forall address :: address in found <==> Reachable(doc, structure, address)
    ensures forall address | address in found :: address in doc && found[address] == doc[address]
  {
    found := map[];
    var pending := [structure];
    while |pending| > 0
      invariant Work(doc, structure, found, pending)
      decreases |doc.Keys - found.Keys|, |pending|
    {
      var t := Last(pending);
      ghost var before, left := found, pending;
      pending := pending[..|pending| - 1];
      assert t in left;
      var more;
      found, more := Scan(doc, structure, t, found);
      FewerLeft(doc, before, found);
      pending := pending + more;
      WorkContinues(doc, structure, before, left, found, more);
    }
    WorkDone(doc, structure, found);
  }

  lemma WorkDone(doc: Document, s: Structure, found: Document)
    requires Work(doc, s, found, [])
    ensures forall address :: address in found <==> Reachable(doc, s, address)
  {
    forall address | address in found
      ensures address in doc && Closed(doc, doc[address], found)
    {
      assert Handled(doc, found, [], address);
    }
    forall address | Reachable(doc, s, address)
      ensures address in found
    {
      var p :| Hops(doc, s, p) && Last(p) == address;
      ClosedHoldsAll(doc, s, found, p);
    }
  }

  lemma FewerLeft(doc: Document, before: Document, found: Document)
    requires before.Keys <= found.Keys <= doc.Keys
    ensures |doc.Keys - found.Keys| <= |doc.Keys - before.Keys|
    ensures found.Keys != before.Keys ==> |doc.Keys - found.Keys| < |doc.Keys - before.Keys|
  {
    SubsetSize(doc.Keys - found.Keys, doc.Keys - before.Keys);
    if found.Keys != before.Keys {
      var x :| x in found.Keys && x !in before.Keys;
      assert x in doc.Keys - before.Keys && x !in doc.Keys - found.Keys;
    }
  }

  /** What a scan has added so far: each new address with its structure, which is queued. */
  ghost predicate Added(doc: Document, known: Document, found: Document, more: seq<Structure>) {
    && known.Keys <= found.Keys && (forall address | address in known :: found[address] == known[address])
    && (forall address | address in found && address !in known :: found[address] in more)
    && (forall t | t in more :: exists address | address in found :: found[address] == t)
    && (more == [] ==> found == known) && (more != [] ==> found.Keys != known.Keys)
  }

  lemma AddOne(doc: Document, known: Document, found: Document, more: seq<Structure>, address: string)
    requires Added(doc, known, found, more) && address in doc && address !in found
    ensures Added(doc, known, found[address := doc[address]], more + [doc[address]])
  {
    var f, m := found[address := doc[address]], more + [doc[address]];
    assert f[address] == doc[address] && doc[address] in m;
    forall t | t in m
      ensures exists a | a in f :: f[a] == t
    {
      if t in more {
        var a :| a in found && found[a] == t;
        assert f[a] == t;
      }
    }
  }

  lemma FindOne(doc: Document, s: Structure, t: Structure, known: Document, found: Document, more: seq<Structure>, address: string)
    requires Found(doc, s, known) && Pending(doc, s, known, t) && Refers(t, address) && address in doc && address !in found
    requires Found(doc, s, found) && Added(doc, known, found, more)
    ensures Found(doc, s, found[address := doc[address]])
    ensures Added(doc, known, found[address := doc[address]], more + [doc[address]])
  {
    RefersReach(doc, s, known, t, address);
    AddOne(doc, known, found, more, address);
  }

  /** One structure's references: the new ones are recorded and queued. */
  method Scan(doc: Document, ghost s: Structure, t: Structure, known: Document) returns (found: Document, more: seq<Structure>)
    requires Found(doc, s, known) && Pending(doc, s, known, t)
    ensures Found(doc, s, found) && Added(doc, known, found, more) && Closed(doc, t, found)
  {
    found, more := known, [];
    for i := 0 to |t.nodes|
      invariant Found(doc, s, found) && Added(doc, known, found, more)
      invariant forall j | 0 <= j < i :: Kept(doc, t.nodes[j].subgraph, found)
    {
      var subgraph := t.nodes[i].subgraph;
      if subgraph.Some? && subgraph.value in doc && subgraph.value !in found {
        assert Refers(t, subgraph.value);
        FindOne(doc, s, t, known, found, more, subgraph.value);
        found := found[subgraph.value := doc[subgraph.value]];
        more := more + [doc[subgraph.value]];
      }
    }
  }

  lemma ClosedStays(doc: Document, t: Structure, known: Document, found: Document)
    requires Closed(doc, t, known) && known.Keys <= found.Keys
    ensures Closed(doc, t, found)
  {
    forall i | 0 <= i < |t.nodes|
      ensures Kept(doc, t.nodes[i].subgraph, found)
    {
      assert Kept(doc, t.nodes[i].subgraph, known);
    }
  }

  lemma StillHandled(doc: Document, before: Document, left: seq<Structure>, found: Document, more: seq<Structure>, address: string)
    requires |left| > 0 && Added(doc, before, found, more) && Closed(doc, Last(left), found) && address in found
    requires address in before ==> Handled(doc, before, left, address)
    ensures Handled(doc, found, left[..|left| - 1] + more, address)
  {
    if address in before {
      PopOne(left, more, found[address]);
      if found[address] !in left {
        ClosedStays(doc, found[address], before, found);
      }
    }
  }

  lemma PopOne(left: seq<Structure>, more: seq<Structure>, t: Structure)
    requires |left| > 0
    ensures t in left ==> t == Last(left) || t in left[..|left| - 1] + more
  {
    assert left == left[..|left| - 1] + [Last(left)];
  }

  lemma StillPending(doc: Document, s: Structure, before: Document, found: Document, more: seq<Structure>, t: Structure)
    requires Added(doc, before, found, more) && (Pending(doc, s, before, t) || t in more)
    ensures Pending(doc, s, found, t)
  {
    if t != s && t !in more {
      var address :| address in before && before[address] == t;
      assert found[address] == t;
    }
  }

  lemma AllPending(doc: Document, s: Structure, before: Document, left: seq<Structure>, found: Document, more: seq<Structure>, i: nat)
    requires |left| > 0 && Added(doc, before, found, more) && i < |left| - 1 + |more|
    requires forall j | 0 <= j < |left| :: Pending(doc, s, before, left[j])
    ensures Pending(doc, s, found, (left[..|left| - 1] + more)[i])
  {
    if i < |left| - 1 {
      StillPending(doc, s, before, found, more, left[i]);
    } else {
      StillPending(doc, s, before, found, more, more[i - (|left| - 1)]);
    }
  }

  lemma RootHandled(doc: Document, s: Structure, before: Document, left: seq<Structure>, found: Document, more: seq<Structure>)
    requires |left| > 0 && Added(doc, before, found, more) && Closed(doc, Last(left), found)
    requires s in left || Closed(doc, s, before)
    ensures s in left[..|left| - 1] + more || Closed(doc, s, found)
  {
    PopOne(left, more, s);
    if s !in left {
      ClosedStays(doc, s, before, found);
    }
  }

  lemma WorkContinues(doc: Document, s: Structure, before: Document, left: seq<Structure>, found: Document, more: seq<Structure>)
    requires |left| > 0 && Work(doc, s, before, left) && Found(doc, s, found) && Added(doc, before, found, more)
    requires Closed(doc, Last(left), found)
    ensures Work(doc, s, found, left[..|left| - 1] + more)
  {
    var pending := left[..|left| - 1] + more;
    RootHandled(doc, s, before, left, found, more);
    forall i | 0 <= i < |pending|
      ensures Pending(doc, s, found, pending[i])
    {
      AllPending(doc, s, before, left, found, more, i);
    }
    forall address | address in found
      ensures Handled(doc, found, pending, address)
    {
      StillHandled(doc, before, left, found, more, address);
    }
  }
}

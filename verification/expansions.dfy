/**
 The nest of expandable child graphs, one entry per call site, over references that may form cycles
 (src/cord_runtime/web/presentation.py, expansions).
 */
module Expansions {
  import opened Basics
  import opened Topology

  datatype Status = Resolved | Cyclic | Unresolved

  /** `diagram` names the structure drawn; its layout is a function of it. */
  datatype Entry = Entry(node: string, address: string, key: string, status: Status, diagram: Option<Structure>, children: seq<Entry>)

  // ---------------------------------------------------------------- keys

  function Digit(n: nat): char
    requires n < 10
  {
    ('0' as int + n) as char
  }

  function Decimal(n: nat): (s: string)
    ensures |s| > 0 && forall i | 0 <= i < |s| :: '0' <= s[i] <= '9'
  {
    if n < 10 then [Digit(n)] else Decimal(n / 10) + [Digit(n % 10)]
  }

  function Join(path: seq<nat>): string
    requires |path| > 0
  {
    if |path| == 1 then Decimal(path[0]) else Join(path[..|path| - 1]) + "-" + Decimal(Last(path))
  }

  function DomKey(path: seq<nat>): string
    requires |path| > 0
  {
    "subgraph-" + Join(path)
  }

  lemma LastsAgree(a: string, b: string, x: char, y: char)
    requires a + [x] == b + [y]
    ensures a == b && x == y
  {
    assert (a + [x])[|a|] == x && (b + [y])[|b|] == y;
    assert (a + [x])[..|a|] == a && (b + [y])[..|b|] == b;
  }

  lemma {:induction false} DecimalInjective(m: nat, n: nat)
    requires Decimal(m) == Decimal(n)
    ensures m == n
  {
    if m < 10 && n < 10 {
      assert Decimal(m)[0] == Digit(m) && Decimal(n)[0] == Digit(n);
    } else if m >= 10 && n >= 10 {
      LastsAgree(Decimal(m / 10), Decimal(n / 10), Digit(m % 10), Digit(n % 10));
      DecimalInjective(m / 10, n / 10);
    } else {
      DecimalLength(m);
      DecimalLength(n);
    }
  }

  lemma DecimalLength(n: nat)
    ensures n < 10 <==> |Decimal(n)| == 1
  {
  }

  /** Text after the last separator, on both sides. */
  lemma SplitAgrees(a: string, d: string, b: string, e: string)
    requires a + "-" + d == b + "-" + e
    requires forall i | 0 <= i < |d| :: d[i] != '-'
    requires forall i | 0 <= i < |e| :: e[i] != '-'
    ensures a == b && d == e
  {
    var s := a + "-" + d;
    assert s[|a|] == '-' && s[|b|] == '-';
    assert forall i | |a| < i < |s| :: s[i] == d[i - |a| - 1];
    assert forall i | |b| < i < |s| :: s[i] == e[i - |b| - 1];
    assert |a| == |b|;
    assert s[..|a|] == a && s[..|b|] == b;
    assert s[|a| + 1..] == d && s[|b| + 1..] == e;
  }

  lemma {:induction false} JoinInjective(p: seq<nat>, q: seq<nat>)
    requires |p| > 0 && |q| > 0 && Join(p) == Join(q)
    ensures p == q
    decreases |p|
  {
    if |p| > 1 && |q| > 1 {
      SplitAgrees(Join(p[..|p| - 1]), Decimal(Last(p)), Join(q[..|q| - 1]), Decimal(Last(q)));
      JoinInjective(p[..|p| - 1], q[..|q| - 1]);
      DecimalInjective(Last(p), Last(q));
      assert p == p[..|p| - 1] + [Last(p)] && q == q[..|q| - 1] + [Last(q)];
    } else if |p| == 1 && |q| == 1 {
      DecimalInjective(p[0], q[0]);
    } else if |p| == 1 {
      JoinHasSeparator(q);
      assert false;
    } else {
      JoinHasSeparator(p);
      assert false;
    }
  }

  lemma JoinHasSeparator(p: seq<nat>)
    requires |p| > 1
    ensures '-' in Join(p)
  {
    var front := Join(p[..|p| - 1]);
    assert Join(p)[|front|] == '-';
  }

  lemma DomKeyInjective(p: seq<nat>, q: seq<nat>)
    requires |p| > 0 && |q| > 0 && DomKey(p) == DomKey(q)
    ensures p == q
  {
    var n := |"subgraph-"|;
    assert DomKey(p)[n..] == Join(p) && DomKey(q)[n..] == Join(q);
    JoinInjective(p, q);
  }

  // ---------------------------------------------------------------- the nest

  function Mark(doc: Document, address: string, open: seq<string>): Status {
    if address in open then Cyclic else if address !in doc then Unresolved else Resolved
  }

  /** How many addresses are not open yet. */
  ghost function Unopened(doc: Document, open: seq<string>): nat {
    |doc.Keys - Elements(open)|
  }

  lemma OpensOne(doc: Document, open: seq<string>, address: string)
    requires address in doc && address !in open
    ensures Unopened(doc, open + [address]) < Unopened(doc, open)
  {
    var a, b := doc.Keys - Elements(open + [address]), doc.Keys - Elements(open);
    assert Elements(open + [address]) == Elements(open) + {address};
    assert a == b - {address} && address in b;
  }

  /** The entries of the first `n` nodes. */
  ghost function Expand(s: Structure, n: nat, subgraphs: Document, path: seq<nat>, open: seq<string>): seq<Entry>
    requires n <= |s.nodes|
    decreases Unopened(subgraphs, open), n, 0
  {
    if n == 0 then []
    else if s.nodes[n - 1].subgraph.None? then Expand(s, n - 1, subgraphs, path, open)
    else Expand(s, n - 1, subgraphs, path, open) + [Site(s, n - 1, subgraphs, path, open)]
  }

  /** The entry of one reference. */
  ghost function Site(s: Structure, i: nat, subgraphs: Document, path: seq<nat>, open: seq<string>): Entry
    requires i < |s.nodes| && s.nodes[i].subgraph.Some?
    decreases Unopened(subgraphs, open), i, 1
  {
    var node, address, site := s.nodes[i], s.nodes[i].subgraph.value, path + [i];
    if Mark(subgraphs, address, open).Resolved? then
      OpensOne(subgraphs, open, address);
      var child := subgraphs[address];
      Entry(node.id, address, DomKey(site), Resolved, Some(child), Expand(child, |child.nodes|, subgraphs, site, open + [address]))
    else Entry(node.id, address, DomKey(site), Mark(subgraphs, address, open), None, [])
  }

  /** One entry per reference, in node order, nested under the graph it opens. */
  method ExpandAll(structure: Option<Structure>, subgraphs: Document, path: seq<nat>, ancestors: seq<string>) returns (entries: seq<Entry>)
    ensures structure.None? ==> entries == []
    ensures structure.Some? ==> entries == Expand(structure.value, |structure.value.nodes|, subgraphs, path, ancestors)
    decreases Unopened(subgraphs, ancestors)
  {
    entries := [];
    if structure.None? { return; }
    var nodes := structure.value.nodes;
    for index := 0 to |nodes|
      invariant entries == Expand(structure.value, index, subgraphs, path, ancestors)
    {
      if nodes[index].subgraph.None? { continue; }
      var address := nodes[index].subgraph.value;
      var entry := Entry(nodes[index].id, address, DomKey(path + [index]), Resolved, None, []);
      if address in ancestors {
        entry := entry.(status := Cyclic);
      } else if address !in subgraphs {
        entry := entry.(status := Unresolved);
      } else {
        OpensOne(subgraphs, ancestors, address);
        var child := subgraphs[address];
        var children := ExpandAll(Some(child), subgraphs, path + [index], ancestors + [address]);
        entry := entry.(diagram := Some(child), children := children);
      }
      entries := entries + [entry];
    }
  }

  // ---------------------------------------------------------------- marks

  /** Marked against the whole document: cyclic iff open above, unresolved iff the document lacks it, else drawn and nested. */
  ghost predicate Marked(doc: Document, e: Entry, open: seq<string>)
    decreases e
  {
    && e.status == Mark(doc, e.address, open)
    && (e.status.Resolved? ==> e.diagram == Some(doc[e.address]) && Calls(doc[e.address], |doc[e.address].nodes|) == Sites(e.children))
    && (!e.status.Resolved? ==> e.diagram.None? && e.children == [])
    && (forall i | 0 <= i < |e.children| :: Marked(doc, e.children[i], open + [e.address]))
  }

  /** The references of the first `n` nodes, in order. */
  function Calls(s: Structure, n: nat): seq<(string, string)>
    requires n <= |s.nodes|
  {
    if n == 0 then []
    else if s.nodes[n - 1].subgraph.None? then Calls(s, n - 1)
    else Calls(s, n - 1) + [(s.nodes[n - 1].id, s.nodes[n - 1].subgraph.value)]
  }

  function Sites(entries: seq<Entry>): (calls: seq<(string, string)>)
    ensures |calls| == |entries|
  {
    if |entries| == 0 then [] else Sites(entries[..|entries| - 1]) + [(Last(entries).node, Last(entries).address)]
  }

  /** The expandable graphs: part of the document, and all that they and `s` refer to in it. */
  ghost predicate Covers(doc: Document, s: Structure, subgraphs: Document) {
    && (forall a | a in subgraphs :: a in doc && subgraphs[a] == doc[a] && Closed(doc, doc[a], subgraphs))
    && Closed(doc, s, subgraphs)
  }

  lemma SiteNames(s: Structure, i: nat, subgraphs: Document, path: seq<nat>, open: seq<string>)
    requires i < |s.nodes| && s.nodes[i].subgraph.Some?
    ensures Site(s, i, subgraphs, path, open).node == s.nodes[i].id
    ensures Site(s, i, subgraphs, path, open).address == s.nodes[i].subgraph.value
    ensures Expand(s, i + 1, subgraphs, path, open) == Expand(s, i, subgraphs, path, open) + [Site(s, i, subgraphs, path, open)]
    ensures Calls(s, i + 1) == Calls(s, i) + [(s.nodes[i].id, s.nodes[i].subgraph.value)]
  {
  }

  lemma MarkedOneMore(doc: Document, entries: seq<Entry>, e: Entry, open: seq<string>)
    requires AllMarked(doc, entries, open) && Marked(doc, e, open)
    ensures AllMarked(doc, entries + [e], open) && Sites(entries + [e]) == Sites(entries) + [(e.node, e.address)]
  {
    SitesOneMore(entries, e);
  }

  lemma SitesOneMore(entries: seq<Entry>, e: Entry)
    ensures Sites(entries + [e]) == Sites(entries) + [(e.node, e.address)]
  {
    assert (entries + [e])[..|entries|] == entries;
  }

  ghost predicate AllMarked(doc: Document, entries: seq<Entry>, open: seq<string>) {
    forall i | 0 <= i < |entries| :: Marked(doc, entries[i], open)
  }

  /** The entries of the first `n` nodes follow the references, each rightly marked. */
  ghost predicate RightSoFar(doc: Document, s: Structure, n: nat, entries: seq<Entry>, open: seq<string>)
    requires n <= |s.nodes|
  {
    Sites(entries) == Calls(s, n) && AllMarked(doc, entries, open)
  }

  lemma RightOneMore(doc: Document, s: Structure, i: nat, entries: seq<Entry>, e: Entry, open: seq<string>)
    requires i < |s.nodes| && s.nodes[i].subgraph == Some(e.address) && s.nodes[i].id == e.node
    requires RightSoFar(doc, s, i, entries, open) && Marked(doc, e, open)
    ensures RightSoFar(doc, s, i + 1, entries + [e], open)
  {
    MarkedOneMore(doc, entries, e, open);
  }

  lemma {:induction false} ExpandIsMarked(doc: Document, s: Structure, n: nat, subgraphs: Document, path: seq<nat>, open: seq<string>)
    requires n <= |s.nodes| && Covers(doc, s, subgraphs) && forall a | a in open :: a in subgraphs
    ensures RightSoFar(doc, s, n, Expand(s, n, subgraphs, path, open), open)
    decreases Unopened(subgraphs, open), n, 0
  {
    if n > 0 {
      ExpandIsMarked(doc, s, n - 1, subgraphs, path, open);
      if s.nodes[n - 1].subgraph.Some? {
        SiteIsMarked(doc, s, n - 1, subgraphs, path, open);
        SiteNames(s, n - 1, subgraphs, path, open);
        RightOneMore(doc, s, n - 1, Expand(s, n - 1, subgraphs, path, open), Site(s, n - 1, subgraphs, path, open), open);
      } else {
        assert Expand(s, n, subgraphs, path, open) == Expand(s, n - 1, subgraphs, path, open);
      }
    }
  }

  lemma {:induction false} SiteIsMarked(doc: Document, s: Structure, i: nat, subgraphs: Document, path: seq<nat>, open: seq<string>)
    requires i < |s.nodes| && s.nodes[i].subgraph.Some? && Covers(doc, s, subgraphs) && forall a | a in open :: a in subgraphs
    ensures Marked(doc, Site(s, i, subgraphs, path, open), open)
    decreases Unopened(subgraphs, open), i, 1
  {
    var address := s.nodes[i].subgraph.value;
    assert Kept(doc, s.nodes[i].subgraph, subgraphs);
    if Mark(subgraphs, address, open).Resolved? {
      OpensOne(subgraphs, open, address);
      var child := subgraphs[address];
      ExpandIsMarked(doc, child, |child.nodes|, subgraphs, path + [i], open + [address]);
    }
  }

  /** Over the document's own closure, every entry at every depth is marked against the document. */
  lemma NestIsMarked(doc: Document, s: Structure, subgraphs: Document)
    requires forall a :: a in subgraphs <==> Reachable(doc, s, a)
    requires forall a | a in subgraphs :: a in doc && subgraphs[a] == doc[a]
    ensures Sites(Expand(s, |s.nodes|, subgraphs, [], [])) == Calls(s, |s.nodes|)
    ensures AllMarked(doc, Expand(s, |s.nodes|, subgraphs, [], []), [])
  {
    ClosureCovers(doc, s, subgraphs);
    ExpandIsMarked(doc, s, |s.nodes|, subgraphs, [], []);
  }

  lemma ClosureCovers(doc: Document, s: Structure, subgraphs: Document)
    requires forall a :: a in subgraphs <==> Reachable(doc, s, a)
    requires forall a | a in subgraphs :: a in doc && subgraphs[a] == doc[a]
    ensures Covers(doc, s, subgraphs)
  {
    forall a | a in doc && Refers(s, a)
      ensures a in subgraphs
    {
      HopFirst(doc, s, a);
    }
    ReferencesKept(doc, s, subgraphs);
    forall a | a in subgraphs
      ensures Closed(doc, doc[a], subgraphs)
    {
      HopsKept(doc, s, subgraphs, a);
    }
  }

  lemma ReferencesKept(doc: Document, t: Structure, subgraphs: Document)
    requires forall a | a in doc && Refers(t, a) :: a in subgraphs
    ensures Closed(doc, t, subgraphs)
  {
    forall i | 0 <= i < |t.nodes|
      ensures Kept(doc, t.nodes[i].subgraph, subgraphs)
    {
      assert t.nodes[i].subgraph.Some? ==> Refers(t, t.nodes[i].subgraph.value);
    }
  }

  lemma HopsKept(doc: Document, s: Structure, subgraphs: Document, via: string)
    requires forall a :: a in subgraphs <==> Reachable(doc, s, a)
    requires via in doc && via in subgraphs
    ensures Closed(doc, doc[via], subgraphs)
  {
    forall a | a in doc && Refers(doc[via], a)
      ensures a in subgraphs
    {
      HopFurther(doc, s, via, a);
    }
    ReferencesKept(doc, doc[via], subgraphs);
  }

  // ---------------------------------------------------------------- distinct keys

  /** Every key of a nest, entry by entry. */
  function Keys(entries: seq<Entry>): seq<string> {
    if |entries| == 0 then []
    else Keys(entries[..|entries| - 1]) + [Last(entries).key] + Keys(Last(entries).children)
  }

  /** A key of a call site at or below one of the first `n` nodes. */
  ghost predicate Below(key: string, path: seq<nat>, n: nat) {
    exists site: seq<nat> | |site| > |path| :: site[..|path|] == path && site[|path|] < n && key == DomKey(site)
  }

  lemma KeysOneMore(entries: seq<Entry>, e: Entry)
    ensures Keys(entries + [e]) == Keys(entries) + [e.key] + Keys(e.children)
  {
    assert (entries + [e])[..|entries|] == entries;
  }

  ghost predicate AllBelow(keys: seq<string>, path: seq<nat>, n: nat) {
    forall key | key in keys :: Below(key, path, n)
  }

  /** Keys of different call sites differ, however deep. */
  lemma {:induction false} KeysAreDistinct(s: Structure, n: nat, subgraphs: Document, path: seq<nat>, open: seq<string>)
    requires n <= |s.nodes|
    ensures NoDup(Keys(Expand(s, n, subgraphs, path, open)))
    ensures AllBelow(Keys(Expand(s, n, subgraphs, path, open)), path, n)
    decreases Unopened(subgraphs, open), n, 0
  {
    if n > 0 {
      var before := Expand(s, n - 1, subgraphs, path, open);
      KeysAreDistinct(s, n - 1, subgraphs, path, open);
      if s.nodes[n - 1].subgraph.None? {
        BelowMore(Keys(before), path, n);
      } else {
        var m := NestedKeys(s, n - 1, subgraphs, path, open);
        OneMoreIsDistinct(before, Site(s, n - 1, subgraphs, path, open), path, n, m);
      }
    }
  }

  lemma OneMoreIsDistinct(before: seq<Entry>, e: Entry, path: seq<nat>, n: nat, m: nat)
    requires n > 0 && NoDup(Keys(before)) && AllBelow(Keys(before), path, n - 1)
    requires e.key == DomKey(path + [n - 1]) && NoDup(Keys(e.children)) && AllBelow(Keys(e.children), path + [n - 1], m)
    ensures NoDup(Keys(before + [e])) && AllBelow(Keys(before + [e]), path, n)
  {
    KeysOneMore(before, e);
    EntryKeys(Keys(before), Keys(e.children), path, n, m);
  }

  lemma {:induction false} NestedKeys(s: Structure, i: nat, subgraphs: Document, path: seq<nat>, open: seq<string>) returns (m: nat)
    requires i < |s.nodes| && s.nodes[i].subgraph.Some?
    ensures
      var e := Site(s, i, subgraphs, path, open);
      e.key == DomKey(path + [i]) && NoDup(Keys(e.children)) && AllBelow(Keys(e.children), path + [i], m)
    decreases Unopened(subgraphs, open), i, 1
  {
    var address := s.nodes[i].subgraph.value;
    m := 0;
    if Mark(subgraphs, address, open).Resolved? {
      OpensOne(subgraphs, open, address);
      var child := subgraphs[address];
      m := |child.nodes|;
      KeysAreDistinct(child, m, subgraphs, path + [i], open + [address]);
    }
  }

  lemma BelowMore(keys: seq<string>, path: seq<nat>, n: nat)
    requires n > 0 && AllBelow(keys, path, n - 1)
    ensures AllBelow(keys, path, n)
  {
    forall key | key in keys
      ensures Below(key, path, n)
    {
      var site: seq<nat> :| |site| > |path| && site[..|path|] == path && site[|path|] < n - 1 && key == DomKey(site);
    }
  }

  /** One entry's own key, its nested keys, and the keys before it. */
  lemma EntryKeys(before: seq<string>, nested: seq<string>, path: seq<nat>, n: nat, m: nat)
    requires n > 0 && NoDup(before) && NoDup(nested)
    requires AllBelow(before, path, n - 1) && AllBelow(nested, path + [n - 1], m)
    ensures NoDup(before + [DomKey(path + [n - 1])] + nested)
    ensures AllBelow(before + [DomKey(path + [n - 1])] + nested, path, n)
  {
    var site := path + [n - 1];
    BelowMore(before, path, n);
    assert Below(DomKey(site), path, n) by { assert site[..|path|] == path; }
    forall key | key in before
      ensures key != DomKey(site) && !Below(key, site, m)
    {
      BeforeApart(key, path, n, m);
    }
    forall key | key in nested
      ensures key != DomKey(site) && Below(key, path, n)
    {
      NestedApart(key, path, n, m);
    }
    NoDupConcat(before, [DomKey(site)]);
    NoDupConcat(before + [DomKey(site)], nested);
  }

  lemma BeforeApart(key: string, path: seq<nat>, n: nat, m: nat)
    requires n > 0 && Below(key, path, n - 1)
    ensures key != DomKey(path + [n - 1]) && !Below(key, path + [n - 1], m)
  {
    var up := path + [n - 1];
    var site: seq<nat> :| |site| > |path| && site[..|path|] == path && site[|path|] < n - 1 && key == DomKey(site);
    if key == DomKey(up) {
      DomKeyInjective(site, up);
    }
    forall other: seq<nat> | |other| > |up| && other[..|up|] == up
      ensures key != DomKey(other)
    {
      assert other[..|up|][|path|] == n - 1;
      if key == DomKey(other) {
        DomKeyInjective(site, other);
      }
    }
  }

  lemma NestedApart(key: string, path: seq<nat>, n: nat, m: nat)
    requires n > 0 && Below(key, path + [n - 1], m)
    ensures key != DomKey(path + [n - 1]) && Below(key, path, n)
  {
    var up := path + [n - 1];
    var site: seq<nat> :| |site| > |up| && site[..|up|] == up && site[|up|] < m && key == DomKey(site);
    if key == DomKey(up) {
      DomKeyInjective(site, up);
    }
    assert site[..|path|] == site[..|up|][..|path|] == path;
    assert site[|path|] == site[..|up|][|path|] == n - 1;
  }

  /** The nest a page shows: distinct DOM ids throughout. */
  lemma NestKeysAreDistinct(s: Structure, subgraphs: Document)
    ensures NoDup(Keys(Expand(s, |s.nodes|, subgraphs, [], [])))
  {
    KeysAreDistinct(s, |s.nodes|, subgraphs, [], []);
  }
}

/** The catalog: every recorded Run under exactly one entry (src/cord_runtime/viewer.py, build_catalog). */
module Catalog {
  import opened Basics

  /** A recorded Run, by its root span, its `cord.run.id` and its Graph. */
  datatype Run = Run(span: string, runId: string, graph: string)

  /** A live view that may name a Graph. */
  datatype LiveView = LiveView(runId: string, graph: Option<string>)

  datatype Connection = Connection(alias: string, graphs: seq<string>)

  datatype Place = NoConnection | At(alias: string) | Ambiguous(aliases: seq<string>)

  datatype Entry = Entry(graph: string, place: Place, runs: seq<Run>, live: seq<LiveView>)

  // ---------------------------------------------------------------- grouping

  function RunsIn(runs: seq<Run>, graphs: set<string>): seq<Run> {
    if |runs| == 0 then []
    else RunsIn(runs[..|runs| - 1], graphs) + if Last(runs).graph in graphs then [Last(runs)] else []
  }

  /** Neither recorded nor without a Graph. */
  predicate Placeable(v: LiveView, recorded: set<string>) {
    v.runId !in recorded && v.graph.Some? && v.graph.value != ""
  }

  function LiveIn(live: seq<LiveView>, recorded: set<string>, graphs: set<string>): seq<LiveView> {
    if |live| == 0 then []
    else
      LiveIn(live[..|live| - 1], recorded, graphs)
      + if Placeable(Last(live), recorded) && Last(live).graph.value in graphs then [Last(live)] else []
  }

  /** One alias for every listing of the Graph, repeated listings included. */
  function Listings(alias: string, graphs: seq<string>, graph: string): seq<string> {
    if |graphs| == 0 then [] else Listings(alias, graphs[..|graphs| - 1], graph) + if Last(graphs) == graph then [alias] else []
  }

  function Advertisers(connections: seq<Connection>, graph: string): seq<string> {
    if |connections| == 0 then []
    else Advertisers(connections[..|connections| - 1], graph) + Listings(Last(connections).alias, Last(connections).graphs, graph)
  }

  function RecordedIds(runs: seq<Run>): set<string> {
    set i | 0 <= i < |runs| :: runs[i].runId
  }

  /** Every Graph that has a connection, a recorded Run, or a live one. */
  function Graphs(runs: seq<Run>, live: seq<LiveView>, connections: seq<Connection>): set<string> {
    (set i | 0 <= i < |runs| :: runs[i].graph)
    + (set i | 0 <= i < |live| && Placeable(live[i], RecordedIds(runs)) :: live[i].graph.value)
    + (set i, j | 0 <= i < |connections| && 0 <= j < |connections[i].graphs| :: connections[i].graphs[j])
  }

  /** One Graph's entries: its own, or one per listing and one for what cannot be attributed. */
  function GraphEntries(graph: string, aliases: seq<string>, runs: seq<Run>, live: seq<LiveView>): seq<Entry> {
    if |aliases| == 0 then [Entry(graph, NoConnection, runs, live)]
    else if |aliases| == 1 then [Entry(graph, At(aliases[0]), runs, live)]
    else Bare(graph, aliases) + if runs != [] || live != [] then [Entry(graph, Ambiguous(aliases), runs, live)] else []
  }

  function Bare(graph: string, aliases: seq<string>): seq<Entry> {
    if |aliases| == 0 then [] else Bare(graph, aliases[..|aliases| - 1]) + [Entry(graph, At(Last(aliases)), [], [])]
  }

  function HeldRuns(entries: seq<Entry>): seq<Run> {
    if |entries| == 0 then [] else HeldRuns(entries[..|entries| - 1]) + Last(entries).runs
  }

  function HeldLive(entries: seq<Entry>): seq<LiveView> {
    if |entries| == 0 then [] else HeldLive(entries[..|entries| - 1]) + Last(entries).live
  }

  // ---------------------------------------------------------------- the catalog

  method BuildCatalog(runs: seq<Run>, live: seq<LiveView>, connections: seq<Connection>) returns (entries: seq<Entry>)
    ensures multiset(HeldRuns(entries)) == multiset(runs)
    ensures multiset(HeldLive(entries)) == multiset(LiveIn(live, RecordedIds(runs), Graphs(runs, live, connections)))
    ensures AllFit(connections, RecordedIds(runs), entries)
    ensures forall i, j | 0 <= i < |connections| && 0 <= j < |connections[i].graphs| :: Offered(entries, connections[i].graphs[j], connections[i].alias)
  {
    var recorded := RecordedIds(runs);
    var all := Graphs(runs, live, connections);
    entries := [];
    NoneIn(runs, live, recorded);
    var left := all;
    assert all - left == {};
    while left != {}
      invariant left <= all && Catalogued(runs, live, connections, recorded, entries, all - left)
      decreases left
    {
      var graph :| graph in left;
      var own, ownLive := RunsIn(runs, {graph}), LiveIn(live, recorded, {graph});
      var more := GraphEntries(graph, Advertisers(connections, graph), own, ownLive);
      CataloguedOn(runs, live, connections, recorded, entries, all - left, graph);
      assert all - left + {graph} == all - (left - {graph});
      entries := entries + more;
      left := left - {graph};
    }
    assert all - left == all;
    AllIn(runs, all);
    EachIsOffered(connections, entries, all);
  }

  // ---------------------------------------------------------------- what is listed and what is live

  /** The Graph has an entry of its own under the connection. */
  predicate Offered(entries: seq<Entry>, graph: string, alias: string) {
    exists k | 0 <= k < |entries| :: entries[k].graph == graph && entries[k].place == At(alias)
  }

  ghost predicate OffersAll(connections: seq<Connection>, entries: seq<Entry>, done: set<string>) {
    forall graph, alias | graph in done && alias in Advertisers(connections, graph) :: Offered(entries, graph, alias)
  }

  lemma OfferedOn(a: seq<Entry>, b: seq<Entry>, graph: string, alias: string)
    requires Offered(a, graph, alias) || Offered(b, graph, alias)
    ensures Offered(a + b, graph, alias)
  {
    if Offered(a, graph, alias) {
      var k :| 0 <= k < |a| && a[k].graph == graph && a[k].place == At(alias);
      assert (a + b)[k] == a[k];
    } else {
      var k :| 0 <= k < |b| && b[k].graph == graph && b[k].place == At(alias);
      assert (a + b)[|a| + k] == b[k];
    }
  }

  lemma {:induction false} BareOffers(graph: string, aliases: seq<string>, alias: string)
    requires alias in aliases
    ensures Offered(Bare(graph, aliases), graph, alias)
  {
    var front, last := aliases[..|aliases| - 1], [Entry(graph, At(Last(aliases)), [], [])];
    if alias == Last(aliases) {
      assert last[0].place == At(alias);
    } else {
      BareOffers(graph, front, alias);
    }
    OfferedOn(Bare(graph, front), last, graph, alias);
  }

  lemma GraphOffers(graph: string, aliases: seq<string>, runs: seq<Run>, live: seq<LiveView>, alias: string)
    requires alias in aliases
    ensures Offered(GraphEntries(graph, aliases, runs, live), graph, alias)
  {
    if |aliases| == 1 {
      assert GraphEntries(graph, aliases, runs, live)[0].place == At(alias);
    } else {
      BareOffers(graph, aliases, alias);
      OfferedOn(Bare(graph, aliases), if runs != [] || live != [] then [Entry(graph, Ambiguous(aliases), runs, live)] else [], graph, alias);
    }
  }

  lemma OffersOneMore(connections: seq<Connection>, entries: seq<Entry>, done: set<string>, graph: string, runs: seq<Run>, live: seq<LiveView>)
    requires OffersAll(connections, entries, done)
    ensures OffersAll(connections, entries + GraphEntries(graph, Advertisers(connections, graph), runs, live), done + {graph})
  {
    var more := GraphEntries(graph, Advertisers(connections, graph), runs, live);
    forall g, alias | g in done + {graph} && alias in Advertisers(connections, g)
      ensures Offered(entries + more, g, alias)
    {
      if g == graph {
        GraphOffers(graph, Advertisers(connections, graph), runs, live, alias);
      }
      OfferedOn(entries, more, g, alias);
    }
  }

  /** Where a Graph is listed, repeated listings included. */
  ghost function Spots(connections: seq<Connection>, graph: string): set<(nat, nat)> {
    set i: nat, j: nat | i < |connections| && j < |connections[i].graphs| && connections[i].graphs[j] == graph :: (i, j)
  }

  lemma {:induction false} ListedWhen(alias: string, graphs: seq<string>, graph: string)
    ensures |Listings(alias, graphs, graph)| == |Places(graphs, graph)|
    ensures forall a | a in Listings(alias, graphs, graph) :: a == alias
    ensures alias in Listings(alias, graphs, graph) <==> graph in graphs
  {
    if |graphs| > 0 {
      ListedWhen(alias, graphs[..|graphs| - 1], graph);
      PlacesOneMore(graphs, graph);
      assert graphs == graphs[..|graphs| - 1] + [Last(graphs)];
    }
  }

  ghost function Places(graphs: seq<string>, graph: string): set<nat> {
    set j: nat | j < |graphs| && graphs[j] == graph
  }

  lemma PlacesOneMore(graphs: seq<string>, graph: string)
    requires |graphs| > 0
    ensures |Places(graphs, graph)| == |Places(graphs[..|graphs| - 1], graph)| + if Last(graphs) == graph then 1 else 0
  {
    var before := Places(graphs[..|graphs| - 1], graph);
    assert Places(graphs, graph) == if Last(graphs) == graph then before + {|graphs| - 1} else before;
  }

  /** A connection is an advertiser of a Graph exactly when it lists it. */
  lemma {:induction false} AdvertisedWhen(connections: seq<Connection>, graph: string, alias: string)
    ensures alias in Advertisers(connections, graph) <==>
              exists i | 0 <= i < |connections| :: connections[i].alias == alias && graph in connections[i].graphs
  {
    if |connections| > 0 {
      var front := connections[..|connections| - 1];
      AdvertisedWhen(front, graph, alias);
      ListedWhen(Last(connections).alias, Last(connections).graphs, graph);
      assert connections == front + [Last(connections)];
    }
  }

  /** There are as many advertisers as listings, so an advertiser is the only one exactly when its listing is. */
  lemma {:induction false} AdvertisersCount(connections: seq<Connection>, graph: string)
    ensures |Advertisers(connections, graph)| == |Spots(connections, graph)|
  {
    if |connections| > 0 {
      var front, last := connections[..|connections| - 1], Last(connections);
      AdvertisersCount(front, graph);
      ListedWhen(last.alias, last.graphs, graph);
      SpotsOneMore(connections, graph);
    }
  }

  lemma SpotsOneMore(connections: seq<Connection>, graph: string)
    requires |connections| > 0
    ensures
      var last := Last(connections);
      |Spots(connections, graph)| == |Spots(connections[..|connections| - 1], graph)| + |Places(last.graphs, graph)|
  {
    var n, front, last := |connections| - 1, connections[..|connections| - 1], Last(connections);
    var here := Places(last.graphs, graph);
    var own := set j | j in here :: (n, j);
    SameCount(here, own, n);
    assert Spots(connections, graph) == Spots(front, graph) + own;
    assert Spots(front, graph) !! own;
  }

  lemma {:induction false} SameCount(here: set<nat>, own: set<(nat, nat)>, n: nat)
    requires own == set j | j in here :: (n, j)
    ensures |own| == |here|
  {
    if here != {} {
      var j :| j in here;
      SameCount(here - {j}, own - {(n, j)}, n);
    }
  }

  lemma EachIsOffered(connections: seq<Connection>, entries: seq<Entry>, done: set<string>)
    requires OffersAll(connections, entries, done)
    requires forall i, j | 0 <= i < |connections| && 0 <= j < |connections[i].graphs| :: connections[i].graphs[j] in done
    ensures forall i, j | 0 <= i < |connections| && 0 <= j < |connections[i].graphs| :: Offered(entries, connections[i].graphs[j], connections[i].alias)
  {
    forall i, j | 0 <= i < |connections| && 0 <= j < |connections[i].graphs|
      ensures Offered(entries, connections[i].graphs[j], connections[i].alias)
    {
      AdvertisedWhen(connections, connections[i].graphs[j], connections[i].alias);
    }
  }

  lemma {:induction false} LiveCounts(live: seq<LiveView>, recorded: set<string>, graphs: set<string>, v: LiveView)
    ensures multiset(LiveIn(live, recorded, graphs))[v] == if Placeable(v, recorded) && v.graph.value in graphs then multiset(live)[v] else 0
  {
    if |live| > 0 {
      LiveCounts(live[..|live| - 1], recorded, graphs, v);
      assert live == live[..|live| - 1] + [Last(live)];
    }
  }

  /** A live view is held, as often as it was given, exactly when it names a Graph and its Run is not recorded. */
  lemma LiveHeldWhen(runs: seq<Run>, live: seq<LiveView>, connections: seq<Connection>, entries: seq<Entry>, v: LiveView)
    requires multiset(HeldLive(entries)) == multiset(LiveIn(live, RecordedIds(runs), Graphs(runs, live, connections)))
    ensures multiset(HeldLive(entries))[v] ==
            if v.graph.Some? && v.graph.value != "" && (forall i | 0 <= i < |runs| :: runs[i].runId != v.runId) then multiset(live)[v] else 0
  {
    LiveCounts(live, RecordedIds(runs), Graphs(runs, live, connections), v);
    if v in live && Placeable(v, RecordedIds(runs)) {
      var i :| 0 <= i < |live| && live[i] == v;
      assert live[i].graph.value in Graphs(runs, live, connections);
    }
    assert v in multiset(live) <==> v in live;
  }

  /** Some Graphs' Runs and live views, all of them, once each. */
  ghost predicate HoldsFor(runs: seq<Run>, live: seq<LiveView>, recorded: set<string>, entries: seq<Entry>, done: set<string>) {
    && multiset(HeldRuns(entries)) == multiset(RunsIn(runs, done))
    && multiset(HeldLive(entries)) == multiset(LiveIn(live, recorded, done))
  }

  /** The entries of some Graphs. */
  ghost predicate Catalogued(runs: seq<Run>, live: seq<LiveView>, connections: seq<Connection>, recorded: set<string>, entries: seq<Entry>, done: set<string>) {
    && HoldsFor(runs, live, recorded, entries, done) && AllFit(connections, recorded, entries) && OffersAll(connections, entries, done)
  }

  lemma CataloguedOn(runs: seq<Run>, live: seq<LiveView>, connections: seq<Connection>, recorded: set<string>, entries: seq<Entry>, done: set<string>,
                     graph: string)
    requires graph !in done && Catalogued(runs, live, connections, recorded, entries, done)
    ensures
      var more := GraphEntries(graph, Advertisers(connections, graph), RunsIn(runs, {graph}), LiveIn(live, recorded, {graph}));
      Catalogued(runs, live, connections, recorded, entries + more, done + {graph})
  {
    var own, ownLive := RunsIn(runs, {graph}), LiveIn(live, recorded, {graph});
    InOneGraph(runs, live, recorded, graph);
    PlacedRight(connections, recorded, graph, own, ownLive);
    FitConcat(connections, recorded, entries, GraphEntries(graph, Advertisers(connections, graph), own, ownLive));
    HoldsOneMore(runs, live, recorded, entries, done, graph, Advertisers(connections, graph));
    OffersOneMore(connections, entries, done, graph, own, ownLive);
  }

  lemma HoldsOneMore(runs: seq<Run>, live: seq<LiveView>, recorded: set<string>, entries: seq<Entry>, done: set<string>, graph: string, aliases: seq<string>)
    requires graph !in done && HoldsFor(runs, live, recorded, entries, done)
    ensures HoldsFor(runs, live, recorded, entries + GraphEntries(graph, aliases, RunsIn(runs, {graph}), LiveIn(live, recorded, {graph})), done + {graph})
  {
    var own, ownLive := RunsIn(runs, {graph}), LiveIn(live, recorded, {graph});
    OneGraphRuns(runs, done, graph);
    OneGraphLive(live, recorded, done, graph);
    HeldConcat(entries, GraphEntries(graph, aliases, own, ownLive));
    EntriesHold(graph, aliases, own, ownLive);
  }

  lemma FitConcat(connections: seq<Connection>, recorded: set<string>, a: seq<Entry>, b: seq<Entry>)
    requires AllFit(connections, recorded, a) && AllFit(connections, recorded, b)
    ensures AllFit(connections, recorded, a + b)
  {
  }

  /** Attributed to a connection only when it is the one that lists the Graph. */
  predicate RightlyPlaced(connections: seq<Connection>, e: Entry) {
    var aliases := Advertisers(connections, e.graph);
    match e.place
    case NoConnection => aliases == []
    case At(alias) => alias in aliases && (e.runs != [] || e.live != [] ==> aliases == [alias])
    case Ambiguous(listed) => listed == aliases && |aliases| > 1
  }

  /** An entry holds only what belongs to its Graph, and nothing live that is recorded. */
  ghost predicate EntryFits(connections: seq<Connection>, recorded: set<string>, e: Entry) {
    && (forall r | r in e.runs :: r.graph == e.graph)
    && (forall v | v in e.live :: v.runId !in recorded && v.graph == Some(e.graph))
    && RightlyPlaced(connections, e)
  }

  ghost predicate AllFit(connections: seq<Connection>, recorded: set<string>, entries: seq<Entry>) {
    forall i | 0 <= i < |entries| :: EntryFits(connections, recorded, entries[i])
  }

  lemma {:induction false} NoneIn(runs: seq<Run>, live: seq<LiveView>, recorded: set<string>)
    ensures RunsIn(runs, {}) == [] && LiveIn(live, recorded, {}) == []
  {
    if |runs| > 0 {
      NoneIn(runs[..|runs| - 1], live, recorded);
    } else if |live| > 0 {
      NoneIn(runs, live[..|live| - 1], recorded);
    }
  }

  lemma {:induction false} OneGraphRuns(runs: seq<Run>, done: set<string>, graph: string)
    requires graph !in done
    ensures multiset(RunsIn(runs, done + {graph})) == multiset(RunsIn(runs, done)) + multiset(RunsIn(runs, {graph}))
  {
    if |runs| > 0 {
      OneGraphRuns(runs[..|runs| - 1], done, graph);
    }
  }

  lemma {:induction false} OneGraphLive(live: seq<LiveView>, recorded: set<string>, done: set<string>, graph: string)
    requires graph !in done
    ensures multiset(LiveIn(live, recorded, done + {graph})) == multiset(LiveIn(live, recorded, done)) + multiset(LiveIn(live, recorded, {graph}))
  {
    if |live| > 0 {
      OneGraphLive(live[..|live| - 1], recorded, done, graph);
    }
  }

  lemma {:induction false} InOneGraph(runs: seq<Run>, live: seq<LiveView>, recorded: set<string>, graph: string)
    ensures forall r | r in RunsIn(runs, {graph}) :: r.graph == graph
    ensures forall v | v in LiveIn(live, recorded, {graph}) :: v.runId !in recorded && v.graph == Some(graph)
  {
    if |runs| > 0 {
      InOneGraph(runs[..|runs| - 1], live, recorded, graph);
    } else if |live| > 0 {
      InOneGraph(runs, live[..|live| - 1], recorded, graph);
    }
  }

  lemma {:induction false} AllIn(runs: seq<Run>, graphs: set<string>)
    requires forall i | 0 <= i < |runs| :: runs[i].graph in graphs
    ensures RunsIn(runs, graphs) == runs
  {
    if |runs| > 0 {
      AllIn(runs[..|runs| - 1], graphs);
      assert runs == runs[..|runs| - 1] + [Last(runs)];
    }
  }

  lemma {:induction false} HeldConcat(a: seq<Entry>, b: seq<Entry>)
    ensures HeldRuns(a + b) == HeldRuns(a) + HeldRuns(b) && HeldLive(a + b) == HeldLive(a) + HeldLive(b)
  {
    if |b| == 0 {
      assert a + b == a;
    } else {
      var front := b[..|b| - 1];
      assert (a + b)[..|a + b| - 1] == a + front && Last(a + b) == Last(b);
      HeldConcat(a, front);
      assert HeldRuns(a + b) == HeldRuns(a + front) + Last(b).runs && HeldLive(a + b) == HeldLive(a + front) + Last(b).live;
    }
  }

  lemma {:induction false} BareHoldsNothing(graph: string, aliases: seq<string>)
    ensures HeldRuns(Bare(graph, aliases)) == [] && HeldLive(Bare(graph, aliases)) == []
    ensures forall i | 0 <= i < |Bare(graph, aliases)| ::
              Bare(graph, aliases)[i].graph == graph && Bare(graph, aliases)[i].runs == [] && Bare(graph, aliases)[i].live == []
              && Bare(graph, aliases)[i].place.At? && Bare(graph, aliases)[i].place.alias in aliases
  {
    if |aliases| > 0 {
      BareHoldsNothing(graph, aliases[..|aliases| - 1]);
    }
  }

  lemma HeldByOne(e: Entry)
    ensures HeldRuns([e]) == e.runs && HeldLive([e]) == e.live
  {
    assert [e][..0] == [] && Last([e]) == e;
    assert HeldRuns([]) + e.runs == e.runs && HeldLive([]) + e.live == e.live;
  }

  lemma EntriesHold(graph: string, aliases: seq<string>, runs: seq<Run>, live: seq<LiveView>)
    ensures HeldRuns(GraphEntries(graph, aliases, runs, live)) == runs && HeldLive(GraphEntries(graph, aliases, runs, live)) == live
  {
    if |aliases| < 2 {
      HeldByOne(Entry(graph, if |aliases| == 0 then NoConnection else At(aliases[0]), runs, live));
    } else {
      BareHoldsNothing(graph, aliases);
      var one := Entry(graph, Ambiguous(aliases), runs, live);
      HeldConcat(Bare(graph, aliases), [one]);
      HeldByOne(one);
      assert Bare(graph, aliases) + [] == Bare(graph, aliases);
    }
  }

  lemma PlacedRight(connections: seq<Connection>, recorded: set<string>, graph: string, runs: seq<Run>, live: seq<LiveView>)
    requires forall r | r in runs :: r.graph == graph
    requires forall v | v in live :: v.runId !in recorded && v.graph == Some(graph)
    ensures AllFit(connections, recorded, GraphEntries(graph, Advertisers(connections, graph), runs, live))
  {
    var aliases := Advertisers(connections, graph);
    var entries := GraphEntries(graph, aliases, runs, live);
    BareHoldsNothing(graph, aliases);
    forall i | 0 <= i < |entries|
      ensures EntryFits(connections, recorded, entries[i])
    {
      if |aliases| >= 2 && i < |Bare(graph, aliases)| {
        assert entries[i] == Bare(graph, aliases)[i];
      }
    }
  }

  /** Distinct recorded Runs stay distinct: no Run is held by two entries, and none is live as well. */
  lemma HeldOnce(runs: seq<Run>, entries: seq<Entry>, i: nat, j: nat, r: Run)
    requires multiset(HeldRuns(entries)) == multiset(runs) && NoDup(runs)
    requires i < j < |entries| && r in entries[i].runs
    ensures r !in entries[j].runs
  {
    NoDupCounts(runs, r);
    if r in entries[j].runs {
      CountsTwice(entries, i, j, r);
    }
  }

  lemma {:induction false} CountsOnce(entries: seq<Entry>, i: nat, r: Run)
    requires i < |entries| && r in entries[i].runs
    ensures multiset(HeldRuns(entries))[r] >= 1
  {
    if i < |entries| - 1 {
      CountsOnce(entries[..|entries| - 1], i, r);
    } else {
      assert r in multiset(Last(entries).runs);
    }
  }

  lemma {:induction false} CountsTwice(entries: seq<Entry>, i: nat, j: nat, r: Run)
    requires i < j < |entries| && r in entries[i].runs && r in entries[j].runs
    ensures multiset(HeldRuns(entries))[r] >= 2
  {
    if j < |entries| - 1 {
      CountsTwice(entries[..|entries| - 1], i, j, r);
    } else {
      CountsOnce(entries[..|entries| - 1], i, r);
      assert r in multiset(Last(entries).runs);
    }
  }

  lemma {:induction false} NoDupCounts<T>(s: seq<T>, x: T)
    requires NoDup(s)
    ensures multiset(s)[x] <= 1
  {
    if |s| > 0 {
      NoDupCounts(s[..|s| - 1], x);
      assert s == s[..|s| - 1] + [Last(s)];
      if x == Last(s) {
        assert x !in s[..|s| - 1];
      }
    }
  }
}

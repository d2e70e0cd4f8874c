/**
 Counting escalated Attempts per Graph and Node, and the top of the ranking
 (src/cord_runtime/archive_query.py, query_spans).
 */
module Escalations {
  import opened Basics
  import opened Spans
  import opened ArchiveQuery

  datatype Row = Row(graph: string, node: string, count: nat)

  // ---------------------------------------------------------------- order

  /** Python's order on strings: by code point, a proper prefix first. */
  predicate StringLess(a: string, b: string) {
    |b| > 0 && (|a| == 0 || a[0] < b[0] || (a[0] == b[0] && StringLess(a[1..], b[1..])))
  }

  lemma {:induction false} StringOrder(a: string, b: string)
    ensures StringLess(a, b) || StringLess(b, a) || a == b
    ensures !(StringLess(a, b) && StringLess(b, a))
    ensures !StringLess(a, a)
  {
    if |a| > 0 {
      StringOrder(a[1..], a[1..]);
      if |b| > 0 && a[0] == b[0] {
        StringOrder(a[1..], b[1..]);
        assert a == [a[0]] + a[1..] && b == [b[0]] + b[1..];
      }
    }
  }

  lemma {:induction false} StringTransitive(a: string, b: string, c: string)
    requires StringLess(a, b) && StringLess(b, c)
    ensures StringLess(a, c)
  {
    if |a| > 0 && a[0] == b[0] == c[0] {
      StringTransitive(a[1..], b[1..], c[1..]);
    }
  }

  /** The sort key `(-count, graph, node)`. */
  predicate RowLess(a: Row, b: Row) {
    a.count > b.count
    || (a.count == b.count && (StringLess(a.graph, b.graph) || (a.graph == b.graph && StringLess(a.node, b.node))))
  }

  lemma RowOrder(a: Row, b: Row)
    ensures RowLess(a, b) || RowLess(b, a) || a == b
    ensures !(RowLess(a, b) && RowLess(b, a))
    ensures !RowLess(a, a)
  {
    StringOrder(a.graph, b.graph);
    StringOrder(a.node, b.node);
    StringOrder(a.graph, a.graph);
    StringOrder(a.node, a.node);
  }

  lemma RowTransitive(a: Row, b: Row, c: Row)
    requires RowLess(a, b) && RowLess(b, c)
    ensures RowLess(a, c)
  {
    StringOrder(a.graph, b.graph);
    StringOrder(b.graph, c.graph);
    if a.count == b.count == c.count {
      if StringLess(a.graph, b.graph) && StringLess(b.graph, c.graph) {
        StringTransitive(a.graph, b.graph, c.graph);
      }
      if a.graph == b.graph == c.graph {
        StringTransitive(a.node, b.node, c.node);
      }
    }
  }

  ghost predicate Ranked(rows: seq<Row>) {
    forall i, j | 0 <= i < j < |rows| :: RowLess(rows[i], rows[j])
  }

  lemma EmptyHoldsNothing(b: seq<Row>)
    ensures |b| > 0 ==> b[0] in b
  {
  }

  /** A ranking is determined by the rows it holds. */
  lemma {:induction false} RankingUnique(a: seq<Row>, b: seq<Row>)
    requires Ranked(a) && Ranked(b)
    requires forall r :: r in a <==> r in b
    ensures a == b
  {
    if |a| == 0 {
      EmptyHoldsNothing(b);
    } else {
      assert a[0] in b && b[0] in a;
      var i :| 0 <= i < |b| && b[i] == a[0];
      var j :| 0 <= j < |a| && a[j] == b[0];
      RowOrder(a[0], b[0]);
      assert a[0] == b[0];
      forall r
        ensures r in a[1..] <==> r in b[1..]
      {
        RowOrder(a[0], a[0]);
        assert r in a[1..] ==> r in a && RowLess(a[0], r);
        assert r in b[1..] ==> r in b && RowLess(b[0], r);
        assert r in a && r != a[0] ==> r in a[1..] by {
          assert a == [a[0]] + a[1..];
        }
        assert r in b && r != b[0] ==> r in b[1..] by {
          assert b == [b[0]] + b[1..];
        }
      }
      RankingUnique(a[1..], b[1..]);
      assert a == [a[0]] + a[1..] && b == [b[0]] + b[1..];
    }
  }

  /** Where a new row belongs in a ranking. */
  function Insert(rows: seq<Row>, row: Row): (r: seq<Row>)
    requires Ranked(rows) && row !in rows
    ensures Ranked(r)
    ensures forall x :: x in r <==> x in rows || x == row
  {
    if |rows| == 0 then [row]
    else if RowLess(row, rows[0]) then
      InsertFront(rows, row);
      [row] + rows
    else
      RowOrder(row, rows[0]);
      assert rows[0] in rows && rows == [rows[0]] + rows[1..];
      var rest := Insert(rows[1..], row);
      InsertRest(rows, row, rest);
      [rows[0]] + rest
  }

  lemma InsertRest(rows: seq<Row>, row: Row, rest: seq<Row>)
    requires Ranked(rows) && |rows| > 0 && RowLess(rows[0], row) && Ranked(rest)
    requires forall x | x in rest :: x in rows[1..] || x == row
    ensures Ranked([rows[0]] + rest)
  {
    forall i | 0 <= i < |rest|
      ensures RowLess(rows[0], rest[i])
    {
      assert rest[i] in rest;
    }
  }

  lemma InsertFront(rows: seq<Row>, row: Row)
    requires Ranked(rows) && |rows| > 0 && RowLess(row, rows[0])
    ensures Ranked([row] + rows)
  {
    forall i | 0 <= i < |rows|
      ensures RowLess(row, rows[i])
    {
      if i > 0 {
        RowTransitive(row, rows[0], rows[i]);
      }
    }
  }

  // ---------------------------------------------------------------- counts

  /** The Graph and Node of every span to be counted. */
  type Hits = map<string, (string, string)>

  /** The spans of one Graph and Node. */
  function HitsOf(hits: Hits, graph: string, node: string): set<string> {
    set id | id in hits && hits[id] == (graph, node)
  }

  /** The complete ranking: one row for each Graph and Node that has a counted span, no other. */
  ghost predicate FullRanking(hits: Hits, rows: seq<Row>) {
    && Ranked(rows)
    && (forall row :: row in rows <==> row.count == |HitsOf(hits, row.graph, row.node)| && row.count > 0)
  }

  lemma FullRankingUnique(hits: Hits, a: seq<Row>, b: seq<Row>)
    requires FullRanking(hits, a) && FullRanking(hits, b)
    ensures a == b
  {
    RankingUnique(a, b);
  }

  function Total(rows: seq<Row>): nat {
    if |rows| == 0 then 0 else rows[0].count + Total(rows[1..])
  }

  /** The ids a ranking's rows account for, row by row. */
  function Covered(hits: Hits, rows: seq<Row>): set<string> {
    if |rows| == 0 then {}
    else HitsOf(hits, rows[0].graph, rows[0].node) + Covered(hits, rows[1..])
  }

  lemma {:induction false} TotalIsCovered(hits: Hits, rows: seq<Row>)
    requires Ranked(rows)
    requires forall row | row in rows :: row.count == |HitsOf(hits, row.graph, row.node)| && row.count > 0
    ensures Total(rows) == |Covered(hits, rows)|
    ensures forall id :: id in Covered(hits, rows) <==>
              exists row | row in rows :: id in HitsOf(hits, row.graph, row.node)
  {
    if |rows| > 0 {
      var rest := rows[1..];
      assert rows == [rows[0]] + rest;
      TotalIsCovered(hits, rest);
      var first := HitsOf(hits, rows[0].graph, rows[0].node);
      forall row | row in rest
        ensures first !! HitsOf(hits, row.graph, row.node)
      {
        assert RowLess(rows[0], row);
        RowOrder(rows[0], row);
      }
      assert first !! Covered(hits, rest);
    }
  }

  /** The full counts sum to the counted spans: none is lost or counted twice. */
  lemma CountsAreExact(hits: Hits, rows: seq<Row>)
    requires FullRanking(hits, rows)
    ensures Total(rows) == |hits|
  {
    TotalIsCovered(hits, rows);
    forall id
      ensures id in hits.Keys <==> id in Covered(hits, rows)
    {
      if id in hits {
        var k := hits[id];
        var ids := HitsOf(hits, k.0, k.1);
        assert id in ids;
        var row := Row(k.0, k.1, |ids|);
        assert row in rows;
      }
    }
    assert hits.Keys == Covered(hits, rows);
  }

  type Counter = map<(string, string), nat>

  function Count(counts: Counter, k: (string, string)): nat {
    if k in counts then counts[k] else 0
  }

  function Counted(counts: Counter, k: (string, string)): Counter {
    counts[k := Count(counts, k) + 1]
  }

  /** What the Counter holds once the spans in `done` have been read. */
  ghost predicate Counts(hits: Hits, done: set<string>, counts: Counter) {
    && (forall k | k in counts :: counts[k] > 0)
    && (forall k: (string, string) :: Count(counts, k) == |HitsOf(hits, k.0, k.1) * done|)
  }

  lemma CountOne(hits: Hits, done: set<string>, counts: Counter, id: string)
    requires Counts(hits, done, counts) && id !in done
    ensures Counts(hits, done + {id}, if id in hits then Counted(counts, hits[id]) else counts)
  {
    var counts' := if id in hits then Counted(counts, hits[id]) else counts;
    forall k: (string, string)
      ensures Count(counts', k) == |HitsOf(hits, k.0, k.1) * (done + {id})|
    {
      CountOneKey(hits, done, counts, id, k);
    }
  }

  lemma CountOneKey(hits: Hits, done: set<string>, counts: Counter, id: string, k: (string, string))
    requires Count(counts, k) == |HitsOf(hits, k.0, k.1) * done| && id !in done
    ensures Count(if id in hits then Counted(counts, hits[id]) else counts, k) == |HitsOf(hits, k.0, k.1) * (done + {id})|
  {
    var ids := HitsOf(hits, k.0, k.1);
    if id in ids {
      assert ids * (done + {id}) == ids * done + {id};
    } else {
      assert ids * (done + {id}) == ids * done;
    }
  }

  lemma FullCounts(hits: Hits, done: set<string>, counts: Counter, rows: seq<Row>)
    requires Counts(hits, done, counts) && hits.Keys <= done && Ranked(rows)
    requires forall row :: row in rows <==> (row.graph, row.node) in counts && counts[(row.graph, row.node)] == row.count
    ensures FullRanking(hits, rows)
  {
    forall row: Row
      ensures row in rows <==> row.count == |HitsOf(hits, row.graph, row.node)| && row.count > 0
    {
      var k := (row.graph, row.node);
      assert HitsOf(hits, k.0, k.1) * done == HitsOf(hits, k.0, k.1);
      assert Count(counts, k) == |HitsOf(hits, row.graph, row.node)|;
    }
  }

  // ---------------------------------------------------------------- query_spans

  datatype ArchiveError = ArchiveError(location: string, reason: Reason) | InvalidTop

  function GraphOf(span: Span): string {
    if GraphKey in span.attributes && span.attributes[GraphKey].Str? then span.attributes[GraphKey].s else ""
  }

  function NodeOf(span: Span): string {
    if NodeKey in span.attributes && span.attributes[NodeKey].Str? then span.attributes[NodeKey].s else ""
  }

  /** The Attempts that escalated in the half-open window ending at `reference`. */
  function EscalatedHits(spans: SpanMap, reference: int): Hits {
    map id | id in spans && EscalatedInWindow(spans[id].span, reference) ::
      (GraphOf(spans[id].span), NodeOf(spans[id].span))
  }

  /** `sorted(counts.items(), key=...)`, as rows. */
  method SortedRows(counts: Counter) returns (rows: seq<Row>)
    ensures Ranked(rows)
    ensures forall row :: row in rows <==> (row.graph, row.node) in counts && counts[(row.graph, row.node)] == row.count
  {
    rows := [];
    var todo := counts.Keys;
    while todo != {}
      invariant todo <= counts.Keys
      invariant Ranked(rows)
      invariant forall row :: row in rows <==>
                  (row.graph, row.node) in counts.Keys - todo && counts[(row.graph, row.node)] == row.count
      decreases |todo|
    {
      var k :| k in todo;
      rows := Insert(rows, Row(k.0, k.1, counts[k]));
      todo := todo - {k};
    }
  }

  /** `location` is that of the first span in iteration order that the checks turn down. */
  ghost predicate FirstOffender(order: seq<string>, spans: SpanMap, location: string)
    requires Elements(order) == spans.Keys
  {
    exists i | 0 <= i < |order| :: Offends(order, spans, i) && spans[order[i]].location == location
  }

  ghost predicate Offends(order: seq<string>, spans: SpanMap, i: nat)
    requires Elements(order) == spans.Keys && i < |order|
  {
    && order[i] in Elements(order)
    && !LocalSpan(spans, spans[order[i]].span)
    && (forall j | 0 <= j < i :: order[j] in Elements(order) && LocalSpan(spans, spans[order[j]].span))
  }

  /** The top of the one full ranking. */
  ghost predicate TopRows(spans: SpanMap, reference: int, top: nat, rows: seq<Row>) {
    exists full :: FullRanking(EscalatedHits(spans, reference), full) && rows == full[..Min(top, |full|)]
  }

  // ---------------------------------------------------------------- the rows, read off the spans

  /** An Attempt recorded as escalated for that Graph and Node, ending in the half-open window. */
  predicate EscalatedFor(span: Span, graph: string, node: string, reference: int) {
    && HasRole(span, AttemptKind) && Get(span.attributes, OutcomeKey) == Some(Str("escalated"))
    && Get(span.attributes, GraphKey) == Some(Str(graph)) && Get(span.attributes, NodeKey) == Some(Str(node))
    && reference - 56 * 86400 * 1_000_000_000 < span.end <= reference
  }

  function EscalatedIds(spans: SpanMap, graph: string, node: string, reference: int): set<string> {
    set id | id in spans && EscalatedFor(spans[id].span, graph, node, reference)
  }

  /** One row for each Graph and Node with such an Attempt, counting them, in rank order. */
  ghost predicate CountsEscalations(spans: SpanMap, reference: int, rows: seq<Row>) {
    && Ranked(rows)
    && forall row :: row in rows <==> row.count > 0 && row.count == |EscalatedIds(spans, row.graph, row.node, reference)|
  }

  lemma HitsAreEscalations(spans: SpanMap, graph: string, node: string, reference: int)
    requires Legal(spans)
    ensures HitsOf(EscalatedHits(spans, reference), graph, node) == EscalatedIds(spans, graph, node, reference)
  {
    var hits := EscalatedHits(spans, reference);
    forall id | id in spans
      ensures id in HitsOf(hits, graph, node) <==> EscalatedFor(spans[id].span, graph, node, reference)
    {
      assert LegalSpan(spans, id);
      HitIffEscalated(spans, reference, id);
    }
  }

  /** Over a legal archive the full ranking holds exactly one row for each Graph and Node: the number of its escalated Attempts. */
  lemma RankingCountsEscalations(spans: SpanMap, reference: int, rows: seq<Row>)
    requires Legal(spans)
    ensures FullRanking(EscalatedHits(spans, reference), rows) <==> CountsEscalations(spans, reference, rows)
  {
    forall row: Row
      ensures |HitsOf(EscalatedHits(spans, reference), row.graph, row.node)| == |EscalatedIds(spans, row.graph, row.node, reference)|
    {
      HitsAreEscalations(spans, row.graph, row.node, reference);
    }
  }

  /**
   Apply the archive contract in any iteration order. Accepted exactly when the spans are complete
   Run trees; then the rows are the top of the one full ranking, whose rows count the escalated Attempts
   of each Graph and Node. A rejection names the first
   offending span in iteration order.
   */
  method QuerySpans(order: seq<string>, spans: SpanMap, reference: int, top: int)
    returns (r: Result<seq<Row>, ArchiveError>)
    requires Keyed(spans) && NoDup(order) && Elements(order) == spans.Keys
    ensures r.Ok? <==> top > 0 && Legal(spans)
    ensures r.Ok? ==> TopRows(spans, reference, top, r.value)
    ensures r.Ok? ==> exists full :: CountsEscalations(spans, reference, full) && r.value == full[..Min(top, |full|)]
    ensures r.Err? && top > 0 ==> r.error.ArchiveError? && FirstOffender(order, spans, r.error.location)
  {
    if top <= 0 { return Err(InvalidTop); }
    var counts: Counter := map[];
    ghost var hits := EscalatedHits(spans, reference);
    for i := 0 to |order|
      invariant AcceptedUpTo(order, spans, i)
      invariant Counts(hits, Elements(order[..i]), counts)
    {
      assert order[i] in Elements(order);
      var entry := spans[order[i]];
      var checked := CheckSpan(spans, entry.span, reference);
      if checked.Err? {
        FoundOffender(order, spans, i);
        return Err(ArchiveError(entry.location, checked.error));
      }
      AcceptOne(order, spans, i);
      CountNext(order, spans, reference, counts, i);
      if checked.value {
        counts := Counted(counts, (GraphOf(entry.span), NodeOf(entry.span)));
      }
    }
    assert order[..|order|] == order;
    AllAccepted(order, spans);
    var rows := SortedRows(counts);
    FullCounts(hits, spans.Keys, counts, rows);
    RankingCountsEscalations(spans, reference, rows);
    return Ok(rows[..Min(top, |rows|)]);
  }

  lemma CountNext(order: seq<string>, spans: SpanMap, reference: int, counts: Counter, i: nat)
    requires i < |order| && NoDup(order) && order[i] in spans && Counts(EscalatedHits(spans, reference), Elements(order[..i]), counts)
    ensures
      var span := spans[order[i]].span;
      Counts(EscalatedHits(spans, reference), Elements(order[..i + 1]),
             if EscalatedInWindow(span, reference) then Counted(counts, (GraphOf(span), NodeOf(span))) else counts)
  {
    HitIffEscalated(spans, reference, order[i]);
    CountOne(EscalatedHits(spans, reference), Elements(order[..i]), counts, order[i]);
    assert Elements(order[..i + 1]) == Elements(order[..i]) + {order[i]};
  }

  ghost predicate AcceptedUpTo(order: seq<string>, spans: SpanMap, i: nat)
    requires Elements(order) == spans.Keys
  {
    i <= |order| && forall j | 0 <= j < i :: order[j] in Elements(order) && LocalSpan(spans, spans[order[j]].span)
  }

  lemma HitIffEscalated(spans: SpanMap, reference: int, id: string)
    requires id in spans
    ensures id in EscalatedHits(spans, reference) <==> EscalatedInWindow(spans[id].span, reference)
    ensures id in EscalatedHits(spans, reference) ==>
              EscalatedHits(spans, reference)[id] == (GraphOf(spans[id].span), NodeOf(spans[id].span))
    ensures EscalatedHits(spans, reference).Keys <= spans.Keys
  {
  }

  lemma AcceptOne(order: seq<string>, spans: SpanMap, i: nat)
    requires Elements(order) == spans.Keys && i < |order| && AcceptedUpTo(order, spans, i)
    requires order[i] in spans && LocalSpan(spans, spans[order[i]].span)
    ensures AcceptedUpTo(order, spans, i + 1)
  {
  }

  lemma FoundOffender(order: seq<string>, spans: SpanMap, i: nat)
    requires Elements(order) == spans.Keys && i < |order| && AcceptedUpTo(order, spans, i)
    requires order[i] in spans && !LocalSpan(spans, spans[order[i]].span)
    ensures FirstOffender(order, spans, spans[order[i]].location) && !Legal(spans)
  {
    assert Offends(order, spans, i);
    LocalIsLegal(spans);
  }

  lemma AllAccepted(order: seq<string>, spans: SpanMap)
    requires Elements(order) == spans.Keys
    requires AcceptedUpTo(order, spans, |order|)
    ensures Legal(spans)
  {
    LocalIsLegal(spans);
    forall id | id in spans
      ensures LocalSpan(spans, spans[id].span)
    {
      assert id in Elements(order);
    }
  }

  /** The outcome of a query depends on neither the iteration order nor any later one. */
  lemma QueryIsDeterministic(spans: SpanMap, reference: int, top: nat, a: seq<Row>, b: seq<Row>)
    requires TopRows(spans, reference, top, a) && TopRows(spans, reference, top, b)
    ensures a == b
  {
    var fullA :| FullRanking(EscalatedHits(spans, reference), fullA) && a == fullA[..Min(top, |fullA|)];
    var fullB :| FullRanking(EscalatedHits(spans, reference), fullB) && b == fullB[..Min(top, |fullB|)];
    FullRankingUnique(EscalatedHits(spans, reference), fullA, fullB);
  }
}

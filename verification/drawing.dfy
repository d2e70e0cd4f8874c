/** A drawn graph: rows by depth, columns within a row (src/cord_runtime/web/presentation.py, layout). */
module Drawing {
  import opened Basics
  import opened Topology
  import opened LayoutDepths
  import opened Layout

  datatype Placed = Placed(id: string, x: real, y: real)

  datatype Drawn = Drawn(edge: Edge, start: (real, real), end: (real, real))

  datatype Diagram = Diagram(width: nat, height: nat, nodes: seq<Placed>, edges: seq<Drawn>)

  const CELL := 240
  const ROW := 100

  /** The nodes of one row, in document order. */
  function Row(ids: seq<string>, depths: Depths, d: nat): (row: seq<string>)
    ensures forall n :: n in row <==> n in ids && n in depths && depths[n] == d
    ensures NoDup(ids) ==> NoDup(row)
  {
    if |ids| == 0 then []
    else
      var before := Row(ids[..|ids| - 1], depths, d);
      assert ids == ids[..|ids| - 1] + [Last(ids)];
      assert NoDup(ids) ==> Last(ids) !in ids[..|ids| - 1];
      if Last(ids) in depths && depths[Last(ids)] == d then before + [Last(ids)] else before
  }

  /** `width * (col + .5) / len(row)`. */
  function Across(width: nat, col: nat, count: nat): real
    requires count > 0
  {
    width as real * (col as real + 0.5) / count as real
  }

  function Down(depth: nat): real {
    (depth * ROW + 40) as real
  }

  // ---------------------------------------------------------------- columns

  /** Equal columns at least a cell wide: middles at least a cell apart, strictly inside the row. */
  lemma ColumnsApart(width: nat, i: nat, j: nat, count: nat)
    requires i < j < count && width >= CELL * count
    ensures Across(width, j, count) - Across(width, i, count) >= CELL as real
  {
    var step := width as real / count as real;
    StepIsWide(width, count);
    AcrossSteps(width, i, count);
    AcrossSteps(width, j, count);
    assert (j as real + 0.5) - (i as real + 0.5) >= 1.0;
    assert step * (j as real + 0.5) - step * (i as real + 0.5) == step * ((j - i) as real);
    WiderByMore(step, (j - i) as real);
  }

  lemma WiderByMore(step: real, n: real)
    requires step >= 0.0 && n >= 1.0
    ensures step * n >= step
  {
  }

  lemma StepIsWide(width: nat, count: nat)
    requires count > 0 && width >= CELL * count
    ensures width as real / count as real >= CELL as real
  {
    assert width as real >= (CELL * count) as real == CELL as real * count as real;
    assert width as real / count as real >= (CELL as real * count as real) / count as real;
  }

  lemma AcrossSteps(width: nat, col: nat, count: nat)
    requires count > 0
    ensures Across(width, col, count) == (width as real / count as real) * (col as real + 0.5)
  {
  }

  lemma ColumnInside(width: nat, col: nat, count: nat)
    requires col < count && width > 0
    ensures 0.0 < Across(width, col, count) < width as real
  {
    var w, c, n := width as real, col as real + 0.5, count as real;
    assert 0.0 < c < n && w > 0.0;
    FractionInside(w, c, n);
    assert Across(width, col, count) == w * c / n;
  }

  lemma FractionInside(w: real, c: real, n: real)
    requires w > 0.0 && 0.0 < c < n
    ensures 0.0 < w * c / n < w
  {
    assert w * c > 0.0 && w * c < w * n;
    assert w * n / n == w;
  }

  // ---------------------------------------------------------------- the picture

  /** Where a node stands: its row by depth, its column by its place in that row. */
  ghost predicate StandsAt(ids: seq<string>, depths: Depths, width: nat, n: string, at: (real, real)) {
    && n in depths
    && (exists col | 0 <= col < |Row(ids, depths, depths[n])| ::
          Row(ids, depths, depths[n])[col] == n && at.0 == Across(width, col, |Row(ids, depths, depths[n])|))
    && at.1 == Down(depths[n])
  }

  ghost predicate AllStand(ids: seq<string>, depths: Depths, width: nat, positions: map<string, (real, real)>) {
    forall n | n in positions :: StandsAt(ids, depths, width, n, positions[n])
  }

  type Rows = map<nat, seq<string>>

  ghost predicate RowsOf(ids: seq<string>, depths: Depths, rows: Rows) {
    && (forall d | d in rows :: rows[d] == Row(ids, depths, d) && rows[d] != [])
    && (forall n | n in ids && n in depths :: depths[n] in rows)
  }

  method GroupRows(ids: seq<string>, depths: Depths) returns (rows: Rows)
    requires forall n | n in ids :: n in depths
    ensures RowsOf(ids, depths, rows)
  {
    rows := map[];
    for i := 0 to |ids|
      invariant RowsOf(ids[..i], depths, rows)
    {
      var d := depths[ids[i]];
      GroupOne(ids, depths, i, rows);
      rows := rows[d := (if d in rows then rows[d] else []) + [ids[i]]];
    }
    assert ids[..|ids|] == ids;
  }

  lemma EmptyRow(ids: seq<string>, depths: Depths, rows: Rows, d: nat)
    requires RowsOf(ids, depths, rows)
    ensures (if d in rows then rows[d] else []) == Row(ids, depths, d)
  {
    if d !in rows {
      FirstIsMember(Row(ids, depths, d));
    }
  }

  lemma GroupOne(ids: seq<string>, depths: Depths, i: nat, rows: Rows)
    requires i < |ids| && ids[i] in depths && RowsOf(ids[..i], depths, rows)
    ensures
      var d := depths[ids[i]];
      RowsOf(ids[..i + 1], depths, rows[d := (if d in rows then rows[d] else []) + [ids[i]]])
  {
    var d := depths[ids[i]];
    var front, next := ids[..i], rows[d := (if d in rows then rows[d] else []) + [ids[i]]];
    assert ids[..i + 1] == front + [ids[i]];
    EmptyRow(front, depths, rows, d);
    forall e | e in next
      ensures next[e] == Row(front + [ids[i]], depths, e) && next[e] != []
    {
      RowOneMore(front, depths, ids[i], e);
    }
    forall n | n in front + [ids[i]] && n in depths
      ensures depths[n] in next
    {
    }
  }

  lemma RowOneMore(front: seq<string>, depths: Depths, n: string, d: nat)
    requires n in depths
    ensures Row(front + [n], depths, d) == Row(front, depths, d) + if depths[n] == d then [n] else []
  {
    assert (front + [n])[..|front|] == front;
  }

  method WidestRow(rows: Rows) returns (count: nat)
    requires forall d | d in rows :: rows[d] != []
    ensures count > 0
    ensures forall d | d in rows :: |rows[d]| <= count
    ensures if rows == map[] then count == 1 else exists d :: d in rows && |rows[d]| == count
  {
    count := 1;
    var left := rows.Keys;
    while left != {}
      invariant left <= rows.Keys && count > 0
      invariant forall d | d in rows && d !in left :: |rows[d]| <= count
      invariant count == 1 || exists d :: d in rows && |rows[d]| == count
      invariant rows != map[] && left != rows.Keys ==> exists d :: d in rows && |rows[d]| == count
      decreases left
    {
      var d :| d in left;
      left := left - {d};
      if |rows[d]| >= count {
        count := |rows[d]|;
      }
    }
    assert rows != map[] ==> rows.Keys != {};
  }

  method PlaceRows(ids: seq<string>, depths: Depths, rows: Rows, width: nat) returns (positions: map<string, (real, real)>)
    requires RowsOf(ids, depths, rows)
    ensures AllStand(ids, depths, width, positions)
    ensures forall n | n in ids && n in depths :: n in positions
  {
    positions := map[];
    var left := rows.Keys;
    while left != {}
      invariant left <= rows.Keys && AllStand(ids, depths, width, positions)
      invariant forall n | n in ids && n in depths && depths[n] !in left :: n in positions
      decreases left
    {
      var d :| d in left;
      left := left - {d};
      positions := PlaceRow(ids, depths, d, rows[d], width, positions);
    }
  }

  method PlaceRow(ids: seq<string>, depths: Depths, d: nat, row: seq<string>, width: nat, before: map<string, (real, real)>)
    returns (positions: map<string, (real, real)>)
    requires row == Row(ids, depths, d) && AllStand(ids, depths, width, before)
    ensures AllStand(ids, depths, width, positions) && before.Keys <= positions.Keys
    ensures forall n | n in ids && n in depths && depths[n] == d :: n in positions
  {
    positions := before;
    for col := 0 to |row|
      invariant AllStand(ids, depths, width, positions) && before.Keys <= positions.Keys
      invariant forall j | 0 <= j < col :: row[j] in positions
    {
      assert row[col] in row;
      var at := (Across(width, col, |row|), Down(d));
      assert StandsAt(ids, depths, width, row[col], at);
      positions := positions[row[col] := at];
    }
  }

  type Positions = map<string, (real, real)>

  /** Every node once, in document order, where it stands. */
  ghost predicate DrawsNodes(ids: seq<string>, depths: Depths, width: nat, nodes: seq<Placed>) {
    && |nodes| == |ids|
    && (forall i | 0 <= i < |nodes| :: nodes[i].id == ids[i] && StandsAt(ids, depths, width, ids[i], (nodes[i].x, nodes[i].y)))
  }

  /** Every edge from where its source stands to where its target does. */
  ghost predicate DrawsEdges(ids: seq<string>, depths: Depths, width: nat, edges: seq<Edge>, drawn: seq<Drawn>) {
    && |drawn| == |edges|
    && (forall i | 0 <= i < |edges| :: drawn[i].edge == edges[i])
    && (forall i | 0 <= i < |edges| :: StandsAt(ids, depths, width, edges[i].source, drawn[i].start))
    && (forall i | 0 <= i < |edges| :: StandsAt(ids, depths, width, edges[i].target, drawn[i].end))
  }

  /** As wide as the fullest row needs, as high as the deepest. */
  ghost predicate Sized(ids: seq<string>, depths: Depths, width: nat, height: nat) {
    && width > 0 && (forall n | n in depths :: CELL * |Row(ids, depths, depths[n])| <= width)
    && (if depths == map[] then width == CELL else exists n :: n in depths && width == CELL * |Row(ids, depths, depths[n])|)
    && (forall n | n in depths :: depths[n] * ROW < height)
    && (if depths == map[] then height == ROW else exists n :: n in depths && height == (depths[n] + 1) * ROW)
  }

  ghost predicate Draws(s: Structure, edges: seq<Edge>, depths: Depths, d: Diagram) {
    && depths.Keys == Elements(NodeIds(s)) && Tried(edges, Roots(s), |Roots(s)|, depths)
    && DrawsNodes(NodeIds(s), depths, d.width, d.nodes)
    && DrawsEdges(NodeIds(s), depths, d.width, edges, d.edges)
    && Sized(NodeIds(s), depths, d.width, d.height)
  }

  method ListNodes(ids: seq<string>, positions: Positions, ghost depths: Depths, ghost width: nat) returns (nodes: seq<Placed>)
    requires AllStand(ids, depths, width, positions) && forall n | n in ids :: n in positions
    ensures DrawsNodes(ids, depths, width, nodes)
  {
    nodes := [];
    for i := 0 to |ids|
      invariant |nodes| == i
      invariant forall j | 0 <= j < i :: nodes[j].id == ids[j] && StandsAt(ids, depths, width, ids[j], (nodes[j].x, nodes[j].y))
    {
      assert ids[i] in ids;
      var at := positions[ids[i]];
      assert at == (at.0, at.1);
      nodes := nodes + [Placed(ids[i], at.0, at.1)];
    }
  }

  lemma OneMoreEdge(ids: seq<string>, depths: Depths, width: nat, edges: seq<Edge>, drawn: seq<Drawn>, i: nat, next: Drawn)
    requires i < |edges| && DrawsEdges(ids, depths, width, edges[..i], drawn) && next.edge == edges[i]
    requires StandsAt(ids, depths, width, edges[i].source, next.start) && StandsAt(ids, depths, width, edges[i].target, next.end)
    ensures DrawsEdges(ids, depths, width, edges[..i + 1], drawn + [next])
  {
    assert edges[..i + 1] == edges[..i] + [edges[i]];
  }

  method ListEdges(ids: seq<string>, edges: seq<Edge>, positions: Positions, ghost depths: Depths, ghost width: nat) returns (drawn: seq<Drawn>)
    requires AllStand(ids, depths, width, positions) && forall e | e in edges :: e.source in positions && e.target in positions
    ensures DrawsEdges(ids, depths, width, edges, drawn)
  {
    drawn := [];
    for i := 0 to |edges|
      invariant DrawsEdges(ids, depths, width, edges[..i], drawn)
    {
      assert edges[i] in edges;
      var next := Drawn(edges[i], positions[edges[i].source], positions[edges[i].target]);
      OneMoreEdge(ids, depths, width, edges, drawn, i, next);
      drawn := drawn + [next];
    }
    assert edges[..|edges|] == edges;
  }

  method Size(ids: seq<string>, depths: Depths, rows: Rows) returns (width: nat, height: nat)
    requires RowsOf(ids, depths, rows) && depths.Keys == Elements(ids)
    ensures Sized(ids, depths, width, height)
  {
    var widest := WidestRow(rows);
    width := widest * CELL;
    forall n | n in depths
      ensures CELL * |Row(ids, depths, depths[n])| <= width
    {
      assert n in Elements(ids) && depths[n] in rows;
    }
    if |depths| == 0 {
      NoRows(ids, depths, rows);
      return width, ROW;
    }
    RowInUse(ids, depths, rows, widest);
    var deepest := Deepest(depths);
    height := (deepest + 1) * ROW;
  }

  lemma NoRows(ids: seq<string>, depths: Depths, rows: Rows)
    requires RowsOf(ids, depths, rows) && depths == map[]
    ensures rows == map[]
  {
    if d :| d in rows {
      FirstIsMember(Row(ids, depths, d));
    }
  }

  lemma RowInUse(ids: seq<string>, depths: Depths, rows: Rows, count: nat)
    requires RowsOf(ids, depths, rows) && depths.Keys == Elements(ids) && depths != map[]
    requires if rows == map[] then count == 1 else exists d :: d in rows && |rows[d]| == count
    ensures exists n :: n in depths && count == |Row(ids, depths, depths[n])|
  {
    var n :| n in depths;
    assert n in Elements(ids) && depths[n] in rows;
    var d :| d in rows && |rows[d]| == count;
    var m := Row(ids, depths, d)[0];
    FirstIsMember(Row(ids, depths, d));
    assert m in depths && depths[m] == d;
  }

  /** Draws a structure with its derived join edges; nothing without a structure. */
  method LayoutGraph(structure: Option<Structure>, joins: seq<Edge>) returns (diagram: Option<Diagram>, ghost depths: Depths)
    requires structure.Some? ==> InRange(structure.value, structure.value.edges + joins)
    ensures structure.None? <==> diagram.None?
    ensures diagram.Some? ==> Draws(structure.value, structure.value.edges + joins, depths, diagram.value)
  {
    if structure.None? { return None, map[]; }
    var s := structure.value;
    var ids, edges := NodeIds(s), s.edges + joins;
    var found := AssignDepths(s, edges);
    depths := found;
    assert forall n | n in ids :: n in Elements(ids);
    var rows := GroupRows(ids, found);
    var width, height := Size(ids, found, rows);
    var positions := PlaceRows(ids, found, rows, width);
    var nodes := ListNodes(ids, positions, found, width);
    var drawn := ListEdges(ids, edges, positions, found, width);
    diagram := Some(Diagram(width, height, nodes, drawn));
  }

  // ---------------------------------------------------------------- what a reader may rely on

  /** Two nodes of one row are at least a cell apart. */
  lemma SameRowApart(ids: seq<string>, depths: Depths, width: nat, m: string, n: string, p: (real, real), q: (real, real))
    requires StandsAt(ids, depths, width, m, p) && StandsAt(ids, depths, width, n, q) && m != n && depths[m] == depths[n]
    requires CELL * |Row(ids, depths, depths[m])| <= width
    ensures p.1 == q.1 && (p.0 - q.0 >= CELL as real || q.0 - p.0 >= CELL as real)
  {
    var row := Row(ids, depths, depths[m]);
    var i :| 0 <= i < |row| && row[i] == m && p.0 == Across(width, i, |row|);
    var j :| 0 <= j < |row| && row[j] == n && q.0 == Across(width, j, |row|);
    if i < j {
      ColumnsApart(width, i, j, |row|);
    } else {
      ColumnsApart(width, j, i, |row|);
    }
  }

  // ---------------------------------------------------------------- exact places

  /** The indices below `k` of the nodes in row `d`. */
  ghost function InRow(ids: seq<string>, depths: Depths, d: nat, k: nat): set<nat>
    requires k <= |ids|
  {
    set i: nat | i < k && ids[i] in depths && depths[ids[i]] == d
  }

  lemma {:induction false} RowCounts(ids: seq<string>, depths: Depths, d: nat, k: nat)
    requires k <= |ids|
    ensures |Row(ids[..k], depths, d)| == |InRow(ids, depths, d, k)|
  {
    if k == 0 { return; }
    var i := k - 1;
    RowCounts(ids, depths, d, i);
    assert ids[..k][..i] == ids[..i];
    InRowOneMore(ids, depths, d, i);
  }

  lemma InRowOneMore(ids: seq<string>, depths: Depths, d: nat, i: nat)
    requires i < |ids|
    ensures |InRow(ids, depths, d, i + 1)| == |InRow(ids, depths, d, i)| + if ids[i] in depths && depths[ids[i]] == d then 1 else 0
  {
    if ids[i] in depths && depths[ids[i]] == d {
      assert InRow(ids, depths, d, i + 1) == InRow(ids, depths, d, i) + {i};
    } else {
      assert InRow(ids, depths, d, i + 1) == InRow(ids, depths, d, i);
    }
  }

  lemma {:induction false} RowPrefix(ids: seq<string>, depths: Depths, d: nat, k: nat)
    requires k <= |ids|
    ensures Row(ids[..k], depths, d) <= Row(ids, depths, d)
    decreases |ids| - k
  {
    if k == |ids| {
      assert ids[..k] == ids;
      return;
    }
    RowPrefix(ids, depths, d, k + 1);
    assert ids[..k + 1][..k] == ids[..k];
  }

  /** A node's column is the number of nodes of its row listed before it. */
  lemma ColumnOf(ids: seq<string>, depths: Depths, k: nat)
    requires k < |ids| && ids[k] in depths
    ensures
      var d := depths[ids[k]];
      var col := |InRow(ids, depths, d, k)|;
      col < |Row(ids, depths, d)| == |InRow(ids, depths, d, |ids|)| && Row(ids, depths, d)[col] == ids[k]
  {
    var d := depths[ids[k]];
    RowCounts(ids, depths, d, k);
    RowCounts(ids, depths, d, |ids|);
    assert ids[..|ids|] == ids;
    RowPrefix(ids, depths, d, k + 1);
    assert ids[..k + 1][..k] == ids[..k];
  }

  /** The middle of the column behind `before` others, of `count` equal columns. */
  predicate Centred(width: nat, before: nat, count: nat, x: real) {
    2.0 * count as real * x == width as real * (2 * before + 1) as real
  }

  /** Where the `k`-th node stands: evenly spread over its row, 100 below the row before. */
  ghost predicate StandsExactly(ids: seq<string>, depths: Depths, width: nat, k: nat, x: real, y: real)
    requires k < |ids| && ids[k] in depths
  {
    var row := depths[ids[k]];
    var count, before := |InRow(ids, depths, row, |ids|)|, |InRow(ids, depths, row, k)|;
    && Centred(width, before, count, x)
    && y == (100 * row + 40) as real
  }

  lemma StandingIsExact(ids: seq<string>, depths: Depths, width: nat, k: nat, at: (real, real))
    requires NoDup(ids) && k < |ids| && StandsAt(ids, depths, width, ids[k], at)
    ensures StandsExactly(ids, depths, width, k, at.0, at.1)
  {
    ColumnOf(ids, depths, k);
    StandingColumn(ids, depths, width, ids[k], at, |InRow(ids, depths, depths[ids[k]], k)|);
    AcrossTwice(width, |InRow(ids, depths, depths[ids[k]], k)|, |Row(ids, depths, depths[ids[k]])|);
  }

  lemma StandingColumn(ids: seq<string>, depths: Depths, width: nat, n: string, at: (real, real), col: nat)
    requires NoDup(ids) && StandsAt(ids, depths, width, n, at)
    requires col < |Row(ids, depths, depths[n])| && Row(ids, depths, depths[n])[col] == n
    ensures at.0 == Across(width, col, |Row(ids, depths, depths[n])|) && at.1 == (100 * depths[n] + 40) as real
  {
  }

  /**
   Each row spreads its nodes evenly, in document order, over the whole width, and a row is 100
   below the one before.
   */
  lemma PlacesAreExact(s: Structure, edges: seq<Edge>, depths: Depths, d: Diagram, k: nat)
    requires Draws(s, edges, depths, d) && NoDup(NodeIds(s)) && k < |d.nodes|
    ensures k < |NodeIds(s)| && NodeIds(s)[k] == d.nodes[k].id && d.nodes[k].id in depths
    ensures StandsExactly(NodeIds(s), depths, d.width, k, d.nodes[k].x, d.nodes[k].y)
  {
    StandingIsExact(NodeIds(s), depths, d.width, k, (d.nodes[k].x, d.nodes[k].y));
  }

  /** An edge ends where its nodes are drawn. */
  lemma EdgesMeetNodes(s: Structure, edges: seq<Edge>, depths: Depths, d: Diagram, i: nat, k: nat)
    requires Draws(s, edges, depths, d) && NoDup(NodeIds(s)) && i < |d.edges| && k < |d.nodes|
    ensures d.edges[i].edge == edges[i]
    ensures d.nodes[k].id == edges[i].source ==> d.edges[i].start == (d.nodes[k].x, d.nodes[k].y)
    ensures d.nodes[k].id == edges[i].target ==> d.edges[i].end == (d.nodes[k].x, d.nodes[k].y)
  {
    var ids, n := NodeIds(s), d.nodes[k].id;
    if n == edges[i].source { StandsOnce(ids, depths, d.width, n, d.edges[i].start, (d.nodes[k].x, d.nodes[k].y)); }
    if n == edges[i].target { StandsOnce(ids, depths, d.width, n, d.edges[i].end, (d.nodes[k].x, d.nodes[k].y)); }
  }

  lemma StandsOnce(ids: seq<string>, depths: Depths, width: nat, n: string, p: (real, real), q: (real, real))
    requires NoDup(ids) && StandsAt(ids, depths, width, n, p) && StandsAt(ids, depths, width, n, q)
    ensures p == q
  {
    var row := Row(ids, depths, depths[n]);
    var i :| 0 <= i < |row| && row[i] == n && p.0 == Across(width, i, |row|);
    StandingColumn(ids, depths, width, n, q, i);
  }

  lemma AcrossTwice(width: nat, col: nat, count: nat)
    requires count > 0
    ensures Centred(width, col, count, Across(width, col, count))
  {
    var w, c, n := width as real, col as real + 0.5, count as real;
    assert n * (w * c / n) == w * c;
    assert 2.0 * c == (2 * col + 1) as real;
  }

  /** The picture is 240 wide for each node of its fullest row. */
  lemma WidthIsNeeded(ids: seq<string>, depths: Depths, width: nat, height: nat)
    requires Sized(ids, depths, width, height)
    ensures forall n | n in depths :: 240 * |InRow(ids, depths, depths[n], |ids|)| <= width
    ensures
      if depths == map[] then width == 240
      else exists n :: n in depths && width == 240 * |InRow(ids, depths, depths[n], |ids|)|
  {
    assert ids[..|ids|] == ids;
    forall n | n in depths
      ensures |Row(ids, depths, depths[n])| == |InRow(ids, depths, depths[n], |ids|)|
    {
      RowCounts(ids, depths, depths[n], |ids|);
    }
  }

  lemma Inside(ids: seq<string>, depths: Depths, width: nat, height: nat, n: string, p: (real, real))
    requires StandsAt(ids, depths, width, n, p) && Sized(ids, depths, width, height)
    ensures 0.0 < p.0 < width as real && 0.0 < p.1 < height as real
  {
    var row := Row(ids, depths, depths[n]);
    var i :| 0 <= i < |row| && row[i] == n && p.0 == Across(width, i, |row|);
    ColumnInside(width, i, |row|);
    RowInside(ids, depths, width, height, n);
  }

  lemma RowInside(ids: seq<string>, depths: Depths, width: nat, height: nat, n: string)
    requires n in depths && Sized(ids, depths, width, height)
    ensures depths[n] * ROW + 40 < height
  {
    var m :| m in depths && height == (depths[m] + 1) * ROW;
  }

  lemma DrawnInside(s: Structure, edges: seq<Edge>, depths: Depths, d: Diagram, i: nat)
    requires Draws(s, edges, depths, d) && i < |d.nodes|
    ensures d.nodes[i].id == s.nodes[i].id && StandsAt(NodeIds(s), depths, d.width, d.nodes[i].id, (d.nodes[i].x, d.nodes[i].y))
    ensures 0.0 < d.nodes[i].x < d.width as real && 0.0 < d.nodes[i].y < d.height as real
  {
    Inside(NodeIds(s), depths, d.width, d.height, d.nodes[i].id, (d.nodes[i].x, d.nodes[i].y));
  }

  /** Two nodes of one row do not overlap. */
  predicate Apart(depths: Depths, a: Placed, b: Placed) {
    a.id != b.id && a.id in depths && b.id in depths && depths[a.id] == depths[b.id] ==> a.x - b.x >= CELL as real || b.x - a.x >= CELL as real
  }

  lemma DrawnApart(s: Structure, edges: seq<Edge>, depths: Depths, d: Diagram, i: nat, j: nat)
    requires Draws(s, edges, depths, d) && i < |d.nodes| && j < |d.nodes|
    ensures Apart(depths, d.nodes[i], d.nodes[j])
  {
    DrawnInside(s, edges, depths, d, i);
    DrawnInside(s, edges, depths, d, j);
    if d.nodes[i].id == d.nodes[j].id || depths[d.nodes[i].id] != depths[d.nodes[j].id] { return; }
    SameRowApart(NodeIds(s), depths, d.width, d.nodes[i].id, d.nodes[j].id, (d.nodes[i].x, d.nodes[i].y), (d.nodes[j].x, d.nodes[j].y));
  }

  lemma AllInside(s: Structure, edges: seq<Edge>, depths: Depths, d: Diagram)
    requires Draws(s, edges, depths, d)
    ensures forall i | 0 <= i < |d.nodes| :: d.nodes[i].id == s.nodes[i].id
    ensures forall i | 0 <= i < |d.nodes| :: 0.0 < d.nodes[i].x < d.width as real && 0.0 < d.nodes[i].y < d.height as real
  {
    forall i | 0 <= i < |d.nodes|
      ensures d.nodes[i].id == s.nodes[i].id && 0.0 < d.nodes[i].x < d.width as real && 0.0 < d.nodes[i].y < d.height as real
    {
      DrawnInside(s, edges, depths, d, i);
    }
  }

  lemma AllApart(s: Structure, edges: seq<Edge>, depths: Depths, d: Diagram)
    requires Draws(s, edges, depths, d)
    ensures forall i, j | 0 <= i < |d.nodes| && 0 <= j < |d.nodes| :: Apart(depths, d.nodes[i], d.nodes[j])
  {
    forall i, j | 0 <= i < |d.nodes| && 0 <= j < |d.nodes|
      ensures Apart(depths, d.nodes[i], d.nodes[j])
    {
      DrawnApart(s, edges, depths, d, i, j);
    }
  }

  /**
   A drawing shows each node exactly once, keeps nodes of one row a cell apart and every node
   strictly inside the picture, and has a node in every row down to its height.
   */
  lemma DrawingIsReadable(s: Structure, edges: seq<Edge>, depths: Depths, d: Diagram)
    requires Draws(s, edges, depths, d)
    ensures forall i | 0 <= i < |d.nodes| :: d.nodes[i].id == s.nodes[i].id
    ensures forall i, j | 0 <= i < |d.nodes| && 0 <= j < |d.nodes| :: Apart(depths, d.nodes[i], d.nodes[j])
    ensures forall i | 0 <= i < |d.nodes| :: 0.0 < d.nodes[i].x < d.width as real && 0.0 < d.nodes[i].y < d.height as real
    ensures forall row: nat | |s.nodes| > 0 && row * ROW < d.height :: exists n :: n in depths && depths[n] == row
  {
    AllInside(s, edges, depths, d);
    AllApart(s, edges, depths, d);
    forall row: nat | |s.nodes| > 0 && row * ROW < d.height
      ensures exists n :: n in depths && depths[n] == row
    {
      RowsFilled(s, edges, depths, d, row);
    }
  }

  lemma RowsFilled(s: Structure, edges: seq<Edge>, depths: Depths, d: Diagram, row: nat)
    requires Draws(s, edges, depths, d) && |s.nodes| > 0 && row * ROW < d.height
    ensures exists n :: n in depths && depths[n] == row
  {
    assert NodeIds(s)[0] in Elements(NodeIds(s));
    var m :| m in depths && d.height == (depths[m] + 1) * ROW;
    NoEmptyRow(edges, Roots(s), depths, m, row);
  }
}

/** What the producer guarantees about the spans it emits, scope by scope. */
module ExecutionFacts {
  import opened Basics
  import opened Spans
  import opened ArchiveQuery
  import opened Viewer
  import opened Execution

  // ---------------------------------------------------------------- where emitted spans stand

  predicate Emits(m: map<string, Span>, x: string, kind: Kind, up: string) {
    x in m && HasRole(m[x], kind) && m[x].parentId == Some(up)
  }

  /** A span of a scope: inside its time, under it or under another span of the scope. */
  predicate Placed(s: Span, ids: seq<string>, up: string, from: nat, to: nat) {
    && s.spanId in ids
    && from < s.start <= s.end <= to
    && s.parentId.Some? && (s.parentId.value == up || s.parentId.value in ids)
    && (HasRole(s, StepKind) || HasRole(s, AttemptKind))
  }

  predicate Increasing(m: map<string, Span>, ids: seq<string>) {
    && (forall i | 0 <= i < |ids| :: ids[i] in m)
    && (forall i, j | 0 <= i < j < |ids| :: m[ids[i]].start < m[ids[j]].start)
  }

  /** `listed` holds, in order, the spans of one kind recorded directly under `up`. */
  ghost predicate ListsEmitted(m: map<string, Span>, listed: seq<string>, kind: Kind, up: string) {
    Increasing(m, listed) && forall x :: x in listed <==> Emits(m, x, kind, up)
  }

  /** The scope's own Steps and Attempts are recorded as they were executed. */
  ghost predicate Facts(e: Effect, ids: seq<string>, up: string, from: nat) {
    && from <= e.clock
    && (forall x | x in e.spans :: e.spans[x].spanId == x && Placed(e.spans[x], ids, up, from, e.clock))
    && ListsEmitted(e.spans, Ids(e.children), StepKind, up)
    && ListsEmitted(e.spans, e.attempts, AttemptKind, up)
  }

  lemma IdsConcat(a: seq<Node>, b: seq<Node>)
    ensures Ids(a + b) == Ids(a) + Ids(b)
  {
  }

  lemma ListsConcat(m: map<string, Span>, n: map<string, Span>, a: seq<string>, b: seq<string>, kind: Kind, up: string, mid: nat)
    requires m.Keys !! n.Keys && ListsEmitted(m, a, kind, up) && ListsEmitted(n, b, kind, up)
    requires forall x | x in m :: m[x].start <= mid
    requires forall x | x in n :: mid < n[x].start
    ensures ListsEmitted(m + n, a + b, kind, up)
  {
    var l := a + b;
    forall i | 0 <= i < |l|
      ensures l[i] in m + n
    {
      assert i < |a| ==> l[i] == a[i];
      assert i >= |a| ==> l[i] == b[i - |a|];
    }
    forall i, j | 0 <= i < j < |l|
      ensures (m + n)[l[i]].start < (m + n)[l[j]].start
    {
      assert i < |a| ==> l[i] == a[i] && a[i] in m;
      assert i >= |a| ==> l[i] == b[i - |a|] && b[i - |a|] in n;
      assert j < |a| ==> l[j] == a[j] && a[j] in m;
      assert j >= |a| ==> l[j] == b[j - |a|] && b[j - |a|] in n;
    }
  }

  /** Two stretches of one scope, one after the other. */
  lemma FactsConcat(e: Effect, f: Effect, ids: seq<string>, jds: seq<string>, up: string, from: nat, flow: Flow)
    requires Facts(e, ids, up, from) && Facts(f, jds, up, e.clock)
    requires forall x | x in ids :: x !in jds
    ensures Facts(Effect(e.spans + f.spans, f.clock, flow, e.children + f.children, e.attempts + f.attempts), ids + jds, up, from)
  {
    forall x | x in e.spans
      ensures x !in f.spans
    {
    }
    ListsConcat(e.spans, f.spans, Ids(e.children), Ids(f.children), StepKind, up, e.clock);
    ListsConcat(e.spans, f.spans, e.attempts, f.attempts, AttemptKind, up, e.clock);
    IdsConcat(e.children, f.children);
  }

  lemma NoDupParts(a: seq<string>, b: seq<string>)
    requires NoDup(a + b)
    ensures NoDup(a) && NoDup(b) && forall x | x in a :: x !in b
  {
    forall i, j | 0 <= i < j < |a|
      ensures a[i] != a[j]
    {
      assert (a + b)[i] == a[i] && (a + b)[j] == a[j];
    }
    forall i, j | 0 <= i < j < |b|
      ensures b[i] != b[j]
    {
      assert (a + b)[|a| + i] == b[i] && (a + b)[|a| + j] == b[j];
    }
    forall x | x in a
      ensures x !in b
    {
      var i :| 0 <= i < |a| && a[i] == x;
      assert (a + b)[i] == x;
      assert forall j | 0 <= j < |b| :: (a + b)[|a| + j] == b[j];
    }
  }

  lemma {:induction false} ExecFacts(items: seq<Item>, scope: Scope, clock: nat)
    requires NoDup(ItemIds(items)) && scope.spanId !in ItemIds(items)
    requires AttemptKey !in scope.base
    ensures Facts(Exec(items, scope, clock), ItemIds(items), scope.spanId, clock)
    decreases items, 1
  {
    if |items| > 0 {
      var ids, rest := OneItemIds(items[0]), ItemIds(items[1..]);
      NoDupParts(ids, rest);
      ExecOneFacts(items[0], scope, clock);
      var first := ExecOne(items[0], scope, clock);
      if first.flow.Normal? {
        ExecFacts(items[1..], scope, first.clock);
        FactsConcat(first, Exec(items[1..], scope, first.clock), ids, rest, scope.spanId, clock, Exec(items, scope, clock).flow);
      } else {
        FactsWiden(first, ids, ids + rest, scope.spanId, clock);
      }
    }
  }

  lemma FactsWiden(e: Effect, ids: seq<string>, jds: seq<string>, up: string, from: nat)
    requires Facts(e, ids, up, from) && forall x | x in ids :: x in jds
    ensures Facts(e, jds, up, from)
  {
  }

  lemma {:induction false} ExecOneFacts(item: Item, scope: Scope, clock: nat)
    requires NoDup(OneItemIds(item)) && scope.spanId !in OneItemIds(item)
    requires AttemptKey !in scope.base
    ensures Facts(ExecOne(item, scope, clock), OneItemIds(item), scope.spanId, clock)
    decreases item, 2
  {
    if item.Try? {
      ExecFacts(item.body, scope, clock);
    } else if item.Step? && !Refused(item) {
      ExecStepFacts(item, scope, clock);
    } else if item.Attempt? && scope.kind == StepKind && !Refused(item) {
      ExecAttemptFacts(item, scope, clock);
    }
  }

  lemma {:induction false} ExecStepFacts(item: Item, scope: Scope, clock: nat)
    requires item.Step? && !Refused(item)
    requires NoDup(OneItemIds(item)) && scope.spanId !in OneItemIds(item)
    requires AttemptKey !in scope.base
    ensures Facts(ExecOne(item, scope, clock), OneItemIds(item), scope.spanId, clock)
    decreases item, 1
  {
    var start := clock + 1 + item.before;
    var inner := Exec(item.body, StepScope(item, scope), start);
    BodyFresh(item, scope.spanId);
    ExecFacts(item.body, StepScope(item, scope), start);
    StepEffect(item, scope, clock);
    StepSpanRole(item, scope, start, inner.flow, inner.clock + 1 + item.after);
    WrapStep(inner, StepSpan(item, scope, start, inner.flow, inner.clock + 1 + item.after), ItemIds(item.body), scope.spanId, clock,
             ExecOne(item, scope, clock), OneItemIds(item));
  }

  lemma StepEffect(item: Item, scope: Scope, clock: nat)
    requires item.Step? && !Refused(item)
    ensures
      var inner := Exec(item.body, StepScope(item, scope), clock + 1 + item.before);
      var s := StepSpan(item, scope, clock + 1 + item.before, inner.flow, inner.clock + 1 + item.after);
      && ExecOne(item, scope, clock) == Effect(inner.spans[s.spanId := s], s.end, inner.flow, [Node(s.spanId, inner.attempts, inner.children)], [])
      && s.parentId == Some(scope.spanId) && s.start == clock + 1 + item.before && s.end == inner.clock + 1 + item.after && s.spanId == item.id
  {
  }

  lemma AttemptEffect(item: Item, scope: Scope, clock: nat)
    requires item.Attempt? && !Refused(item) && scope.kind == StepKind
    ensures
      var inner := Exec(item.body, scope, clock + 1 + item.before);
      var s := AttemptSpan(item, scope, clock + 1 + item.before, inner.flow, inner.clock + 1 + item.after);
      && ExecOne(item, scope, clock) == Effect(inner.spans[s.spanId := s], s.end, inner.flow, inner.children, [s.spanId] + inner.attempts)
      && s.parentId == Some(scope.spanId) && s.start == clock + 1 + item.before && s.end == inner.clock + 1 + item.after && s.spanId == item.id
      && HasRole(s, AttemptKind)
  {
  }

  lemma {:induction false} ExecAttemptFacts(item: Item, scope: Scope, clock: nat)
    requires item.Attempt? && !Refused(item) && scope.kind == StepKind
    requires NoDup(OneItemIds(item)) && scope.spanId !in OneItemIds(item)
    requires AttemptKey !in scope.base
    ensures Facts(ExecOne(item, scope, clock), OneItemIds(item), scope.spanId, clock)
    decreases item, 1
  {
    var start := clock + 1 + item.before;
    var inner := Exec(item.body, scope, start);
    BodyFresh(item, scope.spanId);
    ExecFacts(item.body, scope, start);
    AttemptEffect(item, scope, clock);
    WrapAttempt(inner, AttemptSpan(item, scope, start, inner.flow, inner.clock + 1 + item.after), ItemIds(item.body), scope.spanId, clock,
                ExecOne(item, scope, clock), OneItemIds(item));
  }

  lemma BodyFresh(item: Item, up: string)
    requires item.Step? || item.Attempt?
    requires NoDup(OneItemIds(item)) && up !in OneItemIds(item)
    ensures NoDup(ItemIds(item.body)) && item.id !in ItemIds(item.body) && up !in ItemIds(item.body) && up != item.id
    ensures OneItemIds(item) == [item.id] + ItemIds(item.body)
  {
    NoDupParts([item.id], ItemIds(item.body));
  }

  lemma ExecDraws(items: seq<Item>, scope: Scope, clock: nat)
    requires NoDup(ItemIds(items)) && scope.spanId !in ItemIds(items) && AttemptKey !in scope.base
    ensures forall x | x in Exec(items, scope, clock).spans :: x in ItemIds(items)
  {
    ExecFacts(items, scope, clock);
  }

  lemma StepSpanRole(item: Item, scope: Scope, start: nat, flow: Flow, end: nat)
    requires item.Step? && AttemptKey !in scope.base
    ensures HasRole(StepSpan(item, scope, start, flow, end), StepKind)
  {
  }

  /** A Step closes around what was recorded inside it. */
  lemma WrapStep(inner: Effect, s: Span, ids: seq<string>, up: string, from: nat, e: Effect, all: seq<string>)
    requires Facts(inner, ids, s.spanId, s.start) && s.spanId !in ids && up != s.spanId && up !in ids
    requires HasRole(s, StepKind) && s.parentId == Some(up) && from < s.start && inner.clock < s.end
    requires all == [s.spanId] + ids
    requires e == Effect(inner.spans[s.spanId := s], s.end, inner.flow, [Node(s.spanId, inner.attempts, inner.children)], [])
    ensures Facts(e, all, up, from)
  {
    var m := inner.spans[s.spanId := s];
    assert Ids([Node(s.spanId, inner.attempts, inner.children)]) == [s.spanId];
    forall x
      ensures x in [s.spanId] <==> Emits(m, x, StepKind, up)
      ensures x in [] <==> Emits(m, x, AttemptKind, up)
    {
    }
  }

  /** An Attempt closes beside what was recorded inside it. */
  lemma WrapAttempt(inner: Effect, s: Span, ids: seq<string>, up: string, from: nat, e: Effect, all: seq<string>)
    requires Facts(inner, ids, up, s.start) && s.spanId !in ids
    requires HasRole(s, AttemptKind) && s.parentId == Some(up) && from < s.start && inner.clock < s.end
    requires all == [s.spanId] + ids
    requires e == Effect(inner.spans[s.spanId := s], s.end, inner.flow, inner.children, [s.spanId] + inner.attempts)
    ensures Facts(e, all, up, from)
  {
    var m := inner.spans[s.spanId := s];
    assert s.spanId !in inner.spans;
    forall x
      ensures x in Ids(inner.children) <==> Emits(m, x, StepKind, up)
      ensures x in [s.spanId] + inner.attempts <==> Emits(m, x, AttemptKind, up)
    {
      assert x != s.spanId ==> (Emits(m, x, StepKind, up) <==> Emits(inner.spans, x, StepKind, up));
      assert x != s.spanId ==> (Emits(m, x, AttemptKind, up) <==> Emits(inner.spans, x, AttemptKind, up));
    }
    IncreasingCons(inner.spans, s, inner.attempts);
    IncreasingSame(inner.spans, m, Ids(inner.children));
  }

  lemma IncreasingSame(m: map<string, Span>, n: map<string, Span>, ids: seq<string>)
    requires Increasing(m, ids) && forall x | x in m :: x in n && n[x] == m[x]
    ensures Increasing(n, ids)
  {
  }

  lemma IncreasingCons(m: map<string, Span>, s: Span, ids: seq<string>)
    requires Increasing(m, ids) && s.spanId !in m && forall x | x in m :: s.start < m[x].start
    ensures Increasing(m[s.spanId := s], [s.spanId] + ids)
  {
    var n, l := m[s.spanId := s], [s.spanId] + ids;
    forall i | 0 <= i < |l|
      ensures l[i] in n
    {
      assert i > 0 ==> l[i] == ids[i - 1];
    }
    forall i, j | 0 <= i < j < |l|
      ensures n[l[i]].start < n[l[j]].start
    {
      assert l[j] == ids[j - 1] && ids[j - 1] in m;
      assert i > 0 ==> l[i] == ids[i - 1] && ids[i - 1] in m;
    }
  }

  // ---------------------------------------------------------------- the executed tree

  ghost predicate AllTrees(spans: SpanMap, nodes: seq<Node>) {
    forall i | 0 <= i < |nodes| :: IsTree(spans, nodes[i]) && TreeStartsDiffer(spans, nodes[i])
  }

  ghost predicate Holds(spans: SpanMap, m: map<string, Span>) {
    forall x | x in m :: x in spans && spans[x].span == m[x]
  }

  /** Every span recorded under one of `ids` is among `m`. */
  ghost predicate Owns(spans: SpanMap, m: map<string, Span>, ids: seq<string>) {
    forall x | x in spans && spans[x].span.parentId.Some? && spans[x].span.parentId.value in ids :: x in m
  }

  lemma ListsFromEmitted(spans: SpanMap, m: map<string, Span>, listed: seq<string>, kind: Kind, up: string)
    requires Holds(spans, m) && Owns(spans, m, [up]) && ListsEmitted(m, listed, kind, up)
    ensures ListsUnder(spans, up, kind, listed) && StartsDiffer(spans, listed)
  {
    forall x
      ensures x in listed <==> IsKind(spans, x, kind) && ParentOf(spans, x, up)
    {
      if IsKind(spans, x, kind) && ParentOf(spans, x, up) {
        assert up in [up];
        assert Emits(m, x, kind, up);
      }
    }
  }

  lemma OwnsFirst(spans: SpanMap, e: Effect, f: Effect, ids: seq<string>, jds: seq<string>, up: string, from: nat, mid: nat)
    requires Facts(e, ids, up, from) && Facts(f, jds, up, mid) && (forall x | x in ids :: x !in jds)
    requires up !in ids && up !in jds
    requires Holds(spans, e.spans + f.spans) && Owns(spans, e.spans + f.spans, ids + jds)
    ensures Holds(spans, e.spans) && Owns(spans, e.spans, ids)
    ensures Holds(spans, f.spans) && Owns(spans, f.spans, jds)
  {
    assert forall x | x in e.spans :: x !in f.spans && (e.spans + f.spans)[x] == e.spans[x];
    assert forall x | x in f.spans :: (e.spans + f.spans)[x] == f.spans[x] && spans[x].span == f.spans[x] && f.spans[x].parentId.value !in ids;
    forall x | x in spans && spans[x].span.parentId.Some? && spans[x].span.parentId.value in ids
      ensures x in e.spans
    {
      assert spans[x].span.parentId.value in ids + jds;
    }
    forall x | x in spans && spans[x].span.parentId.Some? && spans[x].span.parentId.value in jds
      ensures x in f.spans
    {
      assert spans[x].span.parentId.value in ids + jds;
    }
  }

  lemma {:induction false} ExecTrees(spans: SpanMap, items: seq<Item>, scope: Scope, clock: nat)
    requires NoDup(ItemIds(items)) && scope.spanId !in ItemIds(items) && AttemptKey !in scope.base
    requires Holds(spans, Exec(items, scope, clock).spans) && Owns(spans, Exec(items, scope, clock).spans, ItemIds(items))
    ensures AllTrees(spans, Exec(items, scope, clock).children)
    decreases items, 3
  {
    if |items| > 0 {
      var ids, rest := OneItemIds(items[0]), ItemIds(items[1..]);
      NoDupParts(ids, rest);
      var first := ExecOne(items[0], scope, clock);
      ExecOneFacts(items[0], scope, clock);
      if first.flow.Normal? {
        var later := Exec(items[1..], scope, first.clock);
        ExecFacts(items[1..], scope, first.clock);
        OwnsFirst(spans, first, later, ids, rest, scope.spanId, clock, first.clock);
        ExecTrees(spans, items[1..], scope, first.clock);
      }
      ExecOneTrees(spans, items[0], scope, clock);
    }
  }

  lemma {:induction false} ExecOneTrees(spans: SpanMap, item: Item, scope: Scope, clock: nat)
    requires NoDup(OneItemIds(item)) && scope.spanId !in OneItemIds(item) && AttemptKey !in scope.base
    requires Holds(spans, ExecOne(item, scope, clock).spans) && Owns(spans, ExecOne(item, scope, clock).spans, OneItemIds(item))
    ensures AllTrees(spans, ExecOne(item, scope, clock).children)
    decreases item, 2
  {
    if item.Try? {
      ExecTrees(spans, item.body, scope, clock);
    } else if item.Step? && !Refused(item) {
      ExecStepTrees(spans, item, scope, clock);
    } else if item.Attempt? && scope.kind == StepKind && !Refused(item) {
      ExecAttemptTrees(spans, item, scope, clock);
    }
  }

  lemma {:induction false} ExecStepTrees(spans: SpanMap, item: Item, scope: Scope, clock: nat)
    requires item.Step? && !Refused(item)
    requires NoDup(OneItemIds(item)) && scope.spanId !in OneItemIds(item) && AttemptKey !in scope.base
    requires Holds(spans, ExecOne(item, scope, clock).spans) && Owns(spans, ExecOne(item, scope, clock).spans, OneItemIds(item))
    ensures AllTrees(spans, ExecOne(item, scope, clock).children)
    decreases item, 1
  {
    StepOwnsBody(spans, item, scope, clock);
    ExecTrees(spans, item.body, StepScope(item, scope), clock + 1 + item.before);
    StepIsTree(spans, item, scope, clock);
  }

  lemma {:induction false} ExecAttemptTrees(spans: SpanMap, item: Item, scope: Scope, clock: nat)
    requires item.Attempt? && !Refused(item) && scope.kind == StepKind
    requires NoDup(OneItemIds(item)) && scope.spanId !in OneItemIds(item) && AttemptKey !in scope.base
    requires Holds(spans, ExecOne(item, scope, clock).spans) && Owns(spans, ExecOne(item, scope, clock).spans, OneItemIds(item))
    ensures AllTrees(spans, ExecOne(item, scope, clock).children)
    decreases item, 1
  {
    AttemptOwnsBody(spans, item, scope, clock);
    ExecTrees(spans, item.body, scope, clock + 1 + item.before);
    AttemptEffect(item, scope, clock);
  }

  lemma StepOwnsBody(spans: SpanMap, item: Item, scope: Scope, clock: nat)
    requires item.Step? && !Refused(item)
    requires NoDup(OneItemIds(item)) && scope.spanId !in OneItemIds(item) && AttemptKey !in scope.base
    requires Holds(spans, ExecOne(item, scope, clock).spans) && Owns(spans, ExecOne(item, scope, clock).spans, OneItemIds(item))
    ensures
      var inner := Exec(item.body, StepScope(item, scope), clock + 1 + item.before);
      && NoDup(ItemIds(item.body)) && item.id !in ItemIds(item.body)
      && Facts(inner, ItemIds(item.body), item.id, clock + 1 + item.before)
      && Holds(spans, inner.spans) && Owns(spans, inner.spans, ItemIds(item.body))
  {
    BodyFresh(item, scope.spanId);
    var inner := Exec(item.body, StepScope(item, scope), clock + 1 + item.before);
    ExecFacts(item.body, StepScope(item, scope), clock + 1 + item.before);
    OwnsInside(spans, ExecOne(item, scope, clock).spans, inner, ItemIds(item.body), item.id, scope.spanId);
  }

  lemma StepIsTree(spans: SpanMap, item: Item, scope: Scope, clock: nat)
    requires item.Step? && !Refused(item)
    requires NoDup(OneItemIds(item)) && scope.spanId !in OneItemIds(item) && AttemptKey !in scope.base
    requires Holds(spans, ExecOne(item, scope, clock).spans) && Owns(spans, ExecOne(item, scope, clock).spans, OneItemIds(item))
    requires AllTrees(spans, Exec(item.body, StepScope(item, scope), clock + 1 + item.before).children)
    ensures AllTrees(spans, ExecOne(item, scope, clock).children)
  {
    StepOwnsBody(spans, item, scope, clock);
    var inner := Exec(item.body, StepScope(item, scope), clock + 1 + item.before);
    NodeIsTree(spans, ExecOne(item, scope, clock).spans, inner, ItemIds(item.body), item.id, scope.spanId, clock + 1 + item.before);
  }

  lemma AttemptOwnsBody(spans: SpanMap, item: Item, scope: Scope, clock: nat)
    requires item.Attempt? && !Refused(item) && scope.kind == StepKind
    requires NoDup(OneItemIds(item)) && scope.spanId !in OneItemIds(item) && AttemptKey !in scope.base
    requires Holds(spans, ExecOne(item, scope, clock).spans) && Owns(spans, ExecOne(item, scope, clock).spans, OneItemIds(item))
    ensures
      var inner := Exec(item.body, scope, clock + 1 + item.before);
      && NoDup(ItemIds(item.body))
      && Holds(spans, inner.spans) && Owns(spans, inner.spans, ItemIds(item.body))
  {
    BodyFresh(item, scope.spanId);
    var inner := Exec(item.body, scope, clock + 1 + item.before);
    ExecDraws(item.body, scope, clock + 1 + item.before);
    OwnsInside(spans, ExecOne(item, scope, clock).spans, inner, ItemIds(item.body), item.id, scope.spanId);
  }

  lemma NodeIsTree(spans: SpanMap, m: map<string, Span>, inner: Effect, ids: seq<string>, id: string, up: string, from: nat)
    requires id in m && m == inner.spans[id := m[id]] && m[id].parentId == Some(up) && id !in ids && up != id
    requires Holds(spans, m) && Owns(spans, m, [id] + ids) && Facts(inner, ids, id, from)
    requires AllTrees(spans, inner.children)
    ensures IsTree(spans, Node(id, inner.attempts, inner.children)) && TreeStartsDiffer(spans, Node(id, inner.attempts, inner.children))
  {
    HoldsInside(spans, m, inner.spans, id);
    forall x | x in spans && spans[x].span.parentId.Some? && spans[x].span.parentId.value in [id]
      ensures x in inner.spans
    {
      assert spans[x].span.parentId.value in [id] + ids;
    }
    ListsFromEmitted(spans, inner.spans, inner.attempts, AttemptKind, id);
    ListsFromEmitted(spans, inner.spans, Ids(inner.children), StepKind, id);
  }

  /** Taking the enclosing span out leaves the inner spans owning what is under them. */
  lemma OwnsInside(spans: SpanMap, m: map<string, Span>, inner: Effect, ids: seq<string>, id: string, up: string)
    requires id in m && m == inner.spans[id := m[id]] && m[id].parentId == Some(up) && id !in ids && up !in ids
    requires forall x | x in inner.spans :: x in ids
    requires Holds(spans, m) && Owns(spans, m, [id] + ids)
    ensures Holds(spans, inner.spans) && Owns(spans, inner.spans, ids)
  {
    forall x | x in spans && spans[x].span.parentId.Some? && spans[x].span.parentId.value in ids
      ensures x in inner.spans
    {
      assert spans[x].span.parentId.value in [id] + ids;
      assert x in m;
    }
    HoldsInside(spans, m, inner.spans, id);
  }

  // ---------------------------------------------------------------- the archive contract

  /** Base attributes carry identity and cascade facts only. */
  ghost predicate PlainBase(base: Attributes) {
    && NodeKey !in base && OutcomeKey !in base && AttemptKey !in base && VersionKey !in base && TierKey !in base
  }

  /** The scope's own span is recorded, and a path leads from it to a Run of the current version. */
  ghost predicate Anchored(spans: SpanMap, scope: Scope) {
    && PlainBase(scope.base)
    && IsKind(spans, scope.spanId, scope.kind)
    && spans[scope.spanId].span.traceId == scope.traceId
    && SameIdentifiers(scope.base, spans[scope.spanId].span.attributes)
    && (scope.kind == RunKind || scope.kind == StepKind)
    && LeadsToCurrentRun(spans, scope.spanId)
    && (scope.kind == StepKind ==>
          && SameIdentifiers(scope.own, scope.base)
          && TierKey !in scope.own
          && Get(scope.own, NodeKey) == Get(spans[scope.spanId].span.attributes, NodeKey))
  }

  ghost predicate LeadsToCurrentRun(spans: SpanMap, id: string) {
    exists p :: Chain(spans, p) && p[0] == id && Version(spans[Last(p)].span, SEMCONV_VERSION)
  }

  predicate WellNamed(s: Span) {
    Identified(s) && Nonblank(s.attributes, NodeKey)
  }

  lemma StepIsLocal(spans: SpanMap, item: Item, scope: Scope, start: nat, flow: Flow, end: nat)
    requires item.Step? && !Refused(item) && Anchored(spans, scope)
    ensures WellNamed(StepSpan(item, scope, start, flow, end)) ==> LocalSpan(spans, StepSpan(item, scope, start, flow, end))
    ensures NodeOfStep(spans, StepSpan(item, scope, start, flow, end))
  {
    var s := StepSpan(item, scope, start, flow, end);
    var inner := StepScope(item, scope);
    assert HasRole(s, StepKind);
    OutcomeTexts();
    assert SameIdentifiers(s.attributes, scope.base);
  }

  lemma OutcomeTexts()
    ensures forall o: StepOutcome :: o.Text() in STEP_OUTCOMES
    ensures forall o: AttemptOutcome :: o.Text() in ATTEMPT_OUTCOMES
  {
    forall o: StepOutcome
      ensures o.Text() in STEP_OUTCOMES
    {
      match o
      case Passed => assert STEP_OUTCOMES[0] == o.Text();
      case Repaired => assert STEP_OUTCOMES[1] == o.Text();
      case StepFailed => assert STEP_OUTCOMES[2] == o.Text();
      case AwaitingApproval => assert STEP_OUTCOMES[3] == o.Text();
      case Halted => assert STEP_OUTCOMES[4] == o.Text();
    }
    forall o: AttemptOutcome
      ensures o.Text() in ATTEMPT_OUTCOMES
    {
      match o
      case AttemptPassed => assert ATTEMPT_OUTCOMES[0] == o.Text();
      case AttemptFailed => assert ATTEMPT_OUTCOMES[1] == o.Text();
      case Escalated => assert ATTEMPT_OUTCOMES[2] == o.Text();
    }
  }

  lemma AttemptIsLocal(spans: SpanMap, item: Item, scope: Scope, start: nat, flow: Flow, end: nat)
    requires item.Attempt? && !Refused(item) && scope.kind == StepKind && Anchored(spans, scope)
    ensures WellNamed(AttemptSpan(item, scope, start, flow, end)) ==> LocalSpan(spans, AttemptSpan(item, scope, start, flow, end))
    ensures NodeOfStep(spans, AttemptSpan(item, scope, start, flow, end))
  {
    var s := AttemptSpan(item, scope, start, flow, end);
    assert HasRole(s, AttemptKind);
    OutcomeTexts();
    assert SameIdentifiers(s.attributes, scope.own);
    assert Get(s.attributes, NodeKey) == Get(scope.own, NodeKey);
    assert TierKey in s.attributes ==> item.tier.Some? && s.attributes[TierKey] == Str(item.tier.value);
  }

  lemma StepLeads(spans: SpanMap, id: string, up: string)
    requires IsKind(spans, id, StepKind) && ParentOf(spans, id, up) && LeadsToCurrentRun(spans, up)
    ensures LeadsToCurrentRun(spans, id)
  {
    var p :| Chain(spans, p) && p[0] == up && Version(spans[Last(p)].span, SEMCONV_VERSION);
    ChainExtend(spans, id, p);
    assert Last([id] + p) == Last(p);
  }

  lemma StepScopeFits(item: Item, scope: Scope, start: nat, flow: Flow, end: nat)
    requires item.Step? && PlainBase(scope.base)
    ensures
      var s, inner := StepSpan(item, scope, start, flow, end), StepScope(item, scope);
      && HasRole(s, StepKind) && s.parentId == Some(scope.spanId) && s.traceId == scope.traceId == inner.traceId
      && inner.base == scope.base && inner.kind == StepKind && inner.spanId == item.id
      && SameIdentifiers(scope.base, s.attributes) && SameIdentifiers(inner.own, scope.base)
      && TierKey !in inner.own && Get(inner.own, NodeKey) == Get(s.attributes, NodeKey)
  {
  }

  lemma InnerIsAnchored(spans: SpanMap, item: Item, scope: Scope, start: nat, flow: Flow, end: nat)
    requires item.Step? && Anchored(spans, scope) && Holds(spans, map[item.id := StepSpan(item, scope, start, flow, end)])
    ensures Anchored(spans, StepScope(item, scope))
  {
    var s := StepSpan(item, scope, start, flow, end);
    assert item.id in map[item.id := s];
    StepScopeFits(item, scope, start, flow, end);
    StepLeads(spans, item.id, scope.spanId);
  }

  lemma {:induction false} ExecIsLocal(spans: SpanMap, items: seq<Item>, scope: Scope, clock: nat)
    requires NoDup(ItemIds(items)) && scope.spanId !in ItemIds(items)
    requires Anchored(spans, scope) && Holds(spans, Exec(items, scope, clock).spans)
    ensures Exec(items, scope, clock).spans.Keys <= LocalIds(spans)
    decreases items, 1
  {
    if |items| > 0 {
      var ids, rest := OneItemIds(items[0]), ItemIds(items[1..]);
      NoDupParts(ids, rest);
      var first := ExecOne(items[0], scope, clock);
      if first.flow.Normal? {
        var later := Exec(items[1..], scope, first.clock);
        ExecOneFacts(items[0], scope, clock);
        ExecFacts(items[1..], scope, first.clock);
        assert forall x | x in first.spans :: x !in later.spans && (first.spans + later.spans)[x] == first.spans[x];
        assert forall x | x in later.spans :: (first.spans + later.spans)[x] == later.spans[x];
        ExecIsLocal(spans, items[1..], scope, first.clock);
        ExecOneIsLocal(spans, items[0], scope, clock);
      } else {
        ExecOneIsLocal(spans, items[0], scope, clock);
      }
    }
  }

  lemma {:induction false} ExecOneIsLocal(spans: SpanMap, item: Item, scope: Scope, clock: nat)
    requires NoDup(OneItemIds(item)) && scope.spanId !in OneItemIds(item)
    requires Anchored(spans, scope) && Holds(spans, ExecOne(item, scope, clock).spans)
    ensures ExecOne(item, scope, clock).spans.Keys <= LocalIds(spans)
    decreases item, 2
  {
    if item.Try? {
      ExecIsLocal(spans, item.body, scope, clock);
    } else if item.Step? && !Refused(item) {
      StepBodyIsLocal(spans, item, scope, clock);
      StepIsGood(spans, item, scope, clock);
    } else if item.Attempt? && scope.kind == StepKind && !Refused(item) {
      AttemptBodyIsLocal(spans, item, scope, clock);
      AttemptIsGood(spans, item, scope, clock);
    }
  }

  lemma {:induction false} AttemptBodyIsLocal(spans: SpanMap, item: Item, scope: Scope, clock: nat)
    requires item.Attempt? && !Refused(item) && scope.kind == StepKind
    requires NoDup(OneItemIds(item)) && scope.spanId !in OneItemIds(item)
    requires Anchored(spans, scope) && Holds(spans, ExecOne(item, scope, clock).spans)
    ensures Exec(item.body, scope, clock + 1 + item.before).spans.Keys <= LocalIds(spans)
    decreases item, 1
  {
    AttemptHoldsBody(spans, item, scope, clock);
    BodyFresh(item, scope.spanId);
    ExecIsLocal(spans, item.body, scope, clock + 1 + item.before);
  }

  lemma {:induction false} StepBodyIsLocal(spans: SpanMap, item: Item, scope: Scope, clock: nat)
    requires item.Step? && !Refused(item)
    requires NoDup(OneItemIds(item)) && scope.spanId !in OneItemIds(item)
    requires Anchored(spans, scope) && Holds(spans, ExecOne(item, scope, clock).spans)
    ensures Exec(item.body, StepScope(item, scope), clock + 1 + item.before).spans.Keys <= LocalIds(spans)
    decreases item, 1
  {
    BodyReady(spans, item, scope, clock);
    ExecIsLocal(spans, item.body, StepScope(item, scope), clock + 1 + item.before);
  }

  lemma BodyReady(spans: SpanMap, item: Item, scope: Scope, clock: nat)
    requires item.Step? && !Refused(item)
    requires NoDup(OneItemIds(item)) && scope.spanId !in OneItemIds(item)
    requires Anchored(spans, scope) && Holds(spans, ExecOne(item, scope, clock).spans)
    ensures NoDup(ItemIds(item.body)) && StepScope(item, scope).spanId !in ItemIds(item.body) && Anchored(spans, StepScope(item, scope))
    ensures Holds(spans, Exec(item.body, StepScope(item, scope), clock + 1 + item.before).spans)
  {
    InnerFresh(item, scope);
    InnerHolds(spans, item, scope, clock);
    StepAnchorsBody(spans, item, scope, clock);
  }

  /** A recorded Step passes its check as soon as it is named. */
  lemma StepPasses(spans: SpanMap, item: Item, scope: Scope, clock: nat)
    requires item.Step? && !Refused(item) && Anchored(spans, scope)
    ensures
      var inner := Exec(item.body, StepScope(item, scope), clock + 1 + item.before);
      var s := StepSpan(item, scope, clock + 1 + item.before, inner.flow, inner.clock + 1 + item.after);
      (WellNamed(s) ==> LocalSpan(spans, s)) && NodeOfStep(spans, s)
  {
    var inner := Exec(item.body, StepScope(item, scope), clock + 1 + item.before);
    StepIsLocal(spans, item, scope, clock + 1 + item.before, inner.flow, inner.clock + 1 + item.after);
  }

  lemma StepIsGood(spans: SpanMap, item: Item, scope: Scope, clock: nat)
    requires item.Step? && !Refused(item) && Anchored(spans, scope) && Holds(spans, ExecOne(item, scope, clock).spans)
    ensures item.id in LocalIds(spans)
    ensures ExecOne(item, scope, clock).spans.Keys == Exec(item.body, StepScope(item, scope), clock + 1 + item.before).spans.Keys + {item.id}
  {
    ExecStepSpan(item, scope, clock);
    StepPasses(spans, item, scope, clock);
    GoodSpan(spans, ExecOne(item, scope, clock).spans, item.id);
  }

  lemma AttemptIsGood(spans: SpanMap, item: Item, scope: Scope, clock: nat)
    requires item.Attempt? && !Refused(item) && scope.kind == StepKind && Anchored(spans, scope) && Holds(spans, ExecOne(item, scope, clock).spans)
    ensures item.id in LocalIds(spans)
    ensures ExecOne(item, scope, clock).spans.Keys == Exec(item.body, scope, clock + 1 + item.before).spans.Keys + {item.id}
  {
    ExecAttemptSpan(item, scope, clock);
    var inner := Exec(item.body, scope, clock + 1 + item.before);
    AttemptIsLocal(spans, item, scope, clock + 1 + item.before, inner.flow, inner.clock + 1 + item.after);
    GoodSpan(spans, ExecOne(item, scope, clock).spans, item.id);
  }

  lemma GoodSpan(spans: SpanMap, m: map<string, Span>, id: string)
    requires Holds(spans, m) && id in m && NodeOfStep(spans, m[id])
    requires WellNamed(m[id]) ==> LocalSpan(spans, m[id])
    ensures id in LocalIds(spans)
  {
  }

  lemma InnerFresh(item: Item, scope: Scope)
    requires item.Step? && NoDup(OneItemIds(item)) && scope.spanId !in OneItemIds(item)
    ensures NoDup(ItemIds(item.body)) && StepScope(item, scope).spanId !in ItemIds(item.body)
  {
    BodyFresh(item, scope.spanId);
  }

  lemma InnerHolds(spans: SpanMap, item: Item, scope: Scope, clock: nat)
    requires item.Step? && !Refused(item) && Anchored(spans, scope)
    requires NoDup(OneItemIds(item)) && scope.spanId !in OneItemIds(item)
    requires Holds(spans, ExecOne(item, scope, clock).spans)
    ensures Holds(spans, Exec(item.body, StepScope(item, scope), clock + 1 + item.before).spans)
  {
    StepHoldsBody(spans, item, scope, clock);
  }

  lemma StepHoldsBody(spans: SpanMap, item: Item, scope: Scope, clock: nat)
    requires item.Step? && !Refused(item) && PlainBase(scope.base)
    requires NoDup(OneItemIds(item)) && scope.spanId !in OneItemIds(item)
    requires Holds(spans, ExecOne(item, scope, clock).spans)
    ensures
      var inner := Exec(item.body, StepScope(item, scope), clock + 1 + item.before);
      Holds(spans, inner.spans)
      && Holds(spans, map[item.id := StepSpan(item, scope, clock + 1 + item.before, inner.flow, inner.clock + 1 + item.after)])
  {
    BodyFresh(item, scope.spanId);
    ExecDraws(item.body, StepScope(item, scope), clock + 1 + item.before);
    StepEffect(item, scope, clock);
    HoldsInside(spans, ExecOne(item, scope, clock).spans, Exec(item.body, StepScope(item, scope), clock + 1 + item.before).spans, item.id);
  }

  lemma StepAnchorsBody(spans: SpanMap, item: Item, scope: Scope, clock: nat)
    requires item.Step? && !Refused(item)
    requires NoDup(OneItemIds(item)) && scope.spanId !in OneItemIds(item)
    requires Anchored(spans, scope) && Holds(spans, ExecOne(item, scope, clock).spans)
    ensures Anchored(spans, StepScope(item, scope))
  {
    var inner := Exec(item.body, StepScope(item, scope), clock + 1 + item.before);
    StepHoldsBody(spans, item, scope, clock);
    InnerIsAnchored(spans, item, scope, clock + 1 + item.before, inner.flow, inner.clock + 1 + item.after);
  }

  lemma ExecStepSpan(item: Item, scope: Scope, clock: nat)
    requires item.Step? && !Refused(item)
    ensures
      var start := clock + 1 + item.before;
      var inner := Exec(item.body, StepScope(item, scope), start);
      && ExecOne(item, scope, clock).spans.Keys == inner.spans.Keys + {item.id}
      && ExecOne(item, scope, clock).spans[item.id] == StepSpan(item, scope, start, inner.flow, inner.clock + 1 + item.after)
  {
  }

  lemma AttemptHoldsBody(spans: SpanMap, item: Item, scope: Scope, clock: nat)
    requires item.Attempt? && !Refused(item) && scope.kind == StepKind
    requires NoDup(OneItemIds(item)) && scope.spanId !in OneItemIds(item)
    requires Anchored(spans, scope) && Holds(spans, ExecOne(item, scope, clock).spans)
    ensures NoDup(ItemIds(item.body)) && Holds(spans, Exec(item.body, scope, clock + 1 + item.before).spans)
  {
    BodyFresh(item, scope.spanId);
    ExecDraws(item.body, scope, clock + 1 + item.before);
    HoldsInside(spans, ExecOne(item, scope, clock).spans, Exec(item.body, scope, clock + 1 + item.before).spans, item.id);
  }

  lemma ExecAttemptSpan(item: Item, scope: Scope, clock: nat)
    requires item.Attempt? && !Refused(item) && scope.kind == StepKind
    ensures
      var start := clock + 1 + item.before;
      var inner := Exec(item.body, scope, start);
      && ExecOne(item, scope, clock).spans.Keys == inner.spans.Keys + {item.id}
      && ExecOne(item, scope, clock).spans[item.id] == AttemptSpan(item, scope, start, inner.flow, inner.clock + 1 + item.after)
  {
  }

  /** An Attempt carries the Node of the Step it hangs under. */
  ghost predicate NodeOfStep(spans: SpanMap, s: Span) {
    HasRole(s, AttemptKind) ==>
      && s.parentId.Some? && IsKind(spans, s.parentId.value, StepKind)
      && Get(s.attributes, NodeKey) == Get(spans[s.parentId.value].span.attributes, NodeKey)
      && SameIdentity(s, spans[s.parentId.value].span)
  }

  /** The spans that pass their own check as soon as their identity and Node are not blank. */
  ghost function LocalIds(spans: SpanMap): set<string> {
    set x | x in spans && (WellNamed(spans[x].span) ==> LocalSpan(spans, spans[x].span)) && NodeOfStep(spans, spans[x].span)
  }

  lemma HoldsInside(spans: SpanMap, m: map<string, Span>, inner: map<string, Span>, id: string)
    requires id in m && m == inner[id := m[id]] && id !in inner && Holds(spans, m)
    ensures Holds(spans, inner) && Holds(spans, map[id := m[id]])
  {
    assert forall x | x in inner :: m[x] == inner[x];
  }
}

/** The Steps recorded are those a program opens, as its items tell before any run (src/cord_runtime/execution.py). */
module ExecutionNames {
  import opened Basics
  import opened Spans
  import opened Execution
  import opened ExecutionFacts

  /** The Nodes named by recorded Step spans. */
  function StepNames(m: map<string, Span>): set<string> {
    set x | x in m && m[x].name.StepName? :: m[x].name.rest
  }

  /** The spans recorded tell the Nodes opened, and the flow is the one foretold. */
  ghost predicate Foretold(e: Effect, o: Opening) {
    e.flow == o.flow && StepNames(e.spans) == Elements(o.nodes)
  }

  lemma NamesConcat(a: map<string, Span>, b: map<string, Span>)
    requires forall x | x in a :: x !in b
    ensures StepNames(a + b) == StepNames(a) + StepNames(b)
  {
    forall name
      ensures name in StepNames(a + b) <==> name in StepNames(a) || name in StepNames(b)
    {
      if x :| x in a && a[x].name.StepName? && a[x].name.rest == name {
        assert (a + b)[x] == a[x];
      }
      if x :| x in b && b[x].name.StepName? && b[x].name.rest == name {
        assert (a + b)[x] == b[x];
      }
    }
  }

  lemma NamesOneMore(m: map<string, Span>, id: string, s: Span)
    requires id !in m
    ensures StepNames(m[id := s]) == StepNames(m) + if s.name.StepName? then {s.name.rest} else {}
  {
    var n := m[id := s];
    forall name
      ensures name in StepNames(n) <==> name in StepNames(m) || (s.name.StepName? && name == s.name.rest)
    {
      if x :| x in m && m[x].name.StepName? && m[x].name.rest == name {
        assert n[x] == m[x];
      }
      if s.name.StepName? && name == s.name.rest {
        assert n[id] == s;
      }
    }
  }

  lemma ForetoldConcat(e: Effect, f: Effect, o: Opening, q: Opening, all: Effect)
    requires Foretold(e, o) && Foretold(f, q) && (forall x | x in e.spans :: x !in f.spans)
    requires all.spans == e.spans + f.spans && all.flow == f.flow
    ensures Foretold(all, Opening(o.nodes + q.nodes, q.flow))
  {
    NamesConcat(e.spans, f.spans);
    assert Elements(o.nodes + q.nodes) == Elements(o.nodes) + Elements(q.nodes);
  }

  lemma ForetoldStep(inner: Effect, o: Opening, e: Effect, id: string, s: Span)
    requires Foretold(inner, o) && id !in inner.spans && s.name.StepName?
    requires e.spans == inner.spans[id := s] && e.flow == inner.flow
    ensures Foretold(e, Opening([s.name.rest] + o.nodes, o.flow))
  {
    NamesOneMore(inner.spans, id, s);
    assert Elements([s.name.rest] + o.nodes) == {s.name.rest} + Elements(o.nodes);
  }

  lemma ForetoldAttempt(inner: Effect, o: Opening, e: Effect, id: string, s: Span)
    requires Foretold(inner, o) && id !in inner.spans && !s.name.StepName?
    requires e.spans == inner.spans[id := s] && e.flow == inner.flow
    ensures Foretold(e, o)
  {
    NamesOneMore(inner.spans, id, s);
  }

  lemma NothingForetold(flow: Flow, clock: nat)
    ensures Foretold(Effect(map[], clock, flow, [], []), Opening([], flow))
  {
    assert StepNames(map[]) == {} == Elements<string>([]);
  }

  lemma OneDraws(item: Item, scope: Scope, clock: nat)
    requires NoDup(OneItemIds(item)) && scope.spanId !in OneItemIds(item) && AttemptKey !in scope.base
    ensures forall x | x in ExecOne(item, scope, clock).spans :: x in OneItemIds(item)
  {
    ExecOneFacts(item, scope, clock);
  }

  /** Executing opens the Steps foretold and leaves as foretold, whatever the clock and the pauses. */
  lemma {:induction false} ExecOpens(items: seq<Item>, scope: Scope, clock: nat)
    requires NoDup(ItemIds(items)) && scope.spanId !in ItemIds(items) && AttemptKey !in scope.base
    ensures Foretold(Exec(items, scope, clock), Opens(items, scope.kind))
    decreases items, 1
  {
    if |items| == 0 {
      NothingForetold(Normal, clock);
    } else {
      NoDupParts(OneItemIds(items[0]), ItemIds(items[1..]));
      ExecOneOpens(items[0], scope, clock);
      var first := ExecOne(items[0], scope, clock);
      if first.flow.Normal? {
        ExecOpens(items[1..], scope, first.clock);
        var rest := Exec(items[1..], scope, first.clock);
        OneDraws(items[0], scope, clock);
        ExecDraws(items[1..], scope, first.clock);
        ForetoldConcat(first, rest, OpensOne(items[0], scope.kind), Opens(items[1..], scope.kind), Exec(items, scope, clock));
      }
    }
  }

  lemma {:induction false} ExecOneOpens(item: Item, scope: Scope, clock: nat)
    requires NoDup(OneItemIds(item)) && scope.spanId !in OneItemIds(item) && AttemptKey !in scope.base
    ensures Foretold(ExecOne(item, scope, clock), OpensOne(item, scope.kind))
    decreases item, 0
  {
    match item
    case Raise(e) => NothingForetold(Raised(e), clock);
    case Try(body) => ExecOpens(body, scope, clock);
    case Step(id, _, _, _, _, before, body, after) =>
      if Refused(item) {
        NothingForetold(Raised(VALUE_ERROR), clock);
      } else {
        BodyFresh(item, scope.spanId);
        ExecOpens(body, StepScope(item, scope), clock + 1 + before);
        StepOpens(item, scope, clock);
      }
    case Attempt(id, _, _, _, before, body, after) =>
      if scope.kind != StepKind {
        NothingForetold(Raised(ATTRIBUTE_ERROR), clock);
      } else if Refused(item) {
        NothingForetold(Raised(VALUE_ERROR), clock);
      } else {
        BodyFresh(item, scope.spanId);
        ExecOpens(body, scope, clock + 1 + before);
        AttemptOpens(item, scope, clock);
      }
  }

  lemma StepOpens(item: Item, scope: Scope, clock: nat)
    requires item.Step? && !Refused(item) && NoDup(OneItemIds(item)) && scope.spanId !in OneItemIds(item) && AttemptKey !in scope.base
    requires Foretold(Exec(item.body, StepScope(item, scope), clock + 1 + item.before), Opens(item.body, StepKind))
    ensures Foretold(ExecOne(item, scope, clock), OpensOne(item, scope.kind))
  {
    var inner := Exec(item.body, StepScope(item, scope), clock + 1 + item.before);
    BodyFresh(item, scope.spanId);
    ExecDraws(item.body, StepScope(item, scope), clock + 1 + item.before);
    ForetoldStep(inner, Opens(item.body, StepKind), ExecOne(item, scope, clock), item.id,
                 StepSpan(item, scope, clock + 1 + item.before, inner.flow, inner.clock + 1 + item.after));
  }

  lemma AttemptOpens(item: Item, scope: Scope, clock: nat)
    requires item.Attempt? && !Refused(item) && scope.kind == StepKind
    requires NoDup(OneItemIds(item)) && scope.spanId !in OneItemIds(item) && AttemptKey !in scope.base
    requires Foretold(Exec(item.body, scope, clock + 1 + item.before), Opens(item.body, scope.kind))
    ensures Foretold(ExecOne(item, scope, clock), OpensOne(item, scope.kind))
  {
    var inner := Exec(item.body, scope, clock + 1 + item.before);
    BodyFresh(item, scope.spanId);
    ExecDraws(item.body, scope, clock + 1 + item.before);
    ForetoldAttempt(inner, Opens(item.body, scope.kind), ExecOne(item, scope, clock), item.id,
                    AttemptSpan(item, scope, clock + 1 + item.before, inner.flow, inner.clock + 1 + item.after));
  }
}

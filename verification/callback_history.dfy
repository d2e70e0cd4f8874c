/**
 What the callback handler records, told from the events alone: which Step each event opens or ends,
 where it hangs, and how it is recorded (cord-langgraph-callbacks/src/cord_langgraph_callbacks/handler.py).
 */
module CallbackHistory {
  import opened Basics
  import opened Spans
  import opened CallbackHandler

  // ---------------------------------------------------------------- reading the events

  ghost predicate ClosedIn(events: seq<Event>) {
    exists i | 0 <= i < |events| :: events[i].Close?
  }

  /** A tagged start event with a Node and a namespace opens a Step, unless the handler was closed before. */
  ghost predicate OpensAt(events: seq<Event>, i: nat)
    requires i < |events|
  {
    && events[i].Start? && events[i].tagged
    && events[i].node.Some? && events[i].node.value != "" && events[i].namespace.Some? && events[i].namespace.value != ""
    && !ClosedIn(events[..i])
  }

  /** The start event of the Step open under a run id: the last one with that id, unless it was ended since. */
  ghost function OpenUnder(events: seq<Event>, runId: string): (i: Option<nat>)
    ensures i.Some? ==> i.value < |events| && events[i.value].Start? && events[i.value].namespace.Some?
  {
    if |events| == 0 then None
    else
      var n, front, e := |events| - 1, events[..|events| - 1], Last(events);
      if e.Close? then None
      else if e.Start? then if OpensAt(events, n) && e.runId == runId then Some(n) else OpenUnder(front, runId)
      else if e.runId == runId then None
      else OpenUnder(front, runId)
  }

  /** The start event of the Step a namespace stands for: the last one in it, unless a Step of that namespace was ended since. */
  ghost function OpenIn(events: seq<Event>, namespace: string): (i: Option<nat>)
    ensures i.Some? ==> i.value < |events| && events[i.value].Start?
  {
    if |events| == 0 then None
    else
      var n, front, e := |events| - 1, events[..|events| - 1], Last(events);
      if e.Close? then None
      else if e.Start? then if OpensAt(events, n) && e.namespace == Some(namespace) then Some(n) else OpenIn(front, namespace)
      else if OpenUnder(front, e.runId).Some? && events[OpenUnder(front, e.runId).value].namespace == Some(namespace) then None
      else OpenIn(front, namespace)
  }

  /** The namespace around another: what stands before its last separator. */
  ghost predicate Encloses(outer: string, inner: string) {
    outer + "|" <= inner && '|' !in inner[|outer| + 1..]
  }

  /** The span a Step hangs under: the Step open in the enclosing namespace, or the Run. */
  ghost predicate HangsUnder(config: Config, events: seq<Event>, i: nat, up: string)
    requires i < |events| && events[i].Start? && events[i].namespace.Some?
  {
    && (forall outer | Encloses(outer, events[i].namespace.value) && OpenIn(events[..i], outer).Some? ::
          up == events[OpenIn(events[..i], outer).value].spanId)
    && ((forall outer | Encloses(outer, events[i].namespace.value) :: OpenIn(events[..i], outer).None?) ==> up == config.Root())
  }

  /** The link a Step carries: the one the handler was given, if it is the first. */
  ghost predicate LinkOf(resumedFrom: Option<string>, events: seq<Event>, i: nat, link: Option<string>)
    requires i < |events|
  {
    link == if forall k | 0 <= k < i :: !OpensAt(events, k) then resumedFrom else None
  }

  /** A span recorded for the start event `i`, with an outcome and an end. */
  ghost predicate Records(config: Config, resumedFrom: Option<string>, events: seq<Event>, i: nat, s: Span, outcome: string, end: nat)
    requires i < |events| && OpensAt(events, i)
  {
    var e := events[i];
    && s.spanId == e.spanId && s.traceId == config.Trace() && s.name == StepName(e.node.value) && s.start == e.at && s.end == end
    && s.parentId.Some? && HangsUnder(config, events, i, s.parentId.value)
    && Get(s.attributes, NodeKey) == Some(Str(e.node.value)) && Get(s.attributes, OutcomeKey) == Some(Str(outcome))
    && (exists link :: LinkOf(resumedFrom, events, i, link)
                       && Get(s.attributes, ResumedFromKey) == if link.Some? then Some(Str(link.value)) else None)
    && Get(s.attributes, GraphKey) == Some(Str(config.graph)) && Get(s.attributes, RunKey) == Some(Str(config.RunText()))
    && Get(s.attributes, SubjectKey) == Some(Str(config.subject)) && Get(s.attributes, SubjectTypeKey) == Some(Str(config.subjectType))
  }

  // ---------------------------------------------------------------- one event more

  lemma ClosedOneMore(events: seq<Event>)
    requires |events| > 0
    ensures ClosedIn(events) <==> ClosedIn(events[..|events| - 1]) || Last(events).Close?
  {
    var front := events[..|events| - 1];
    if i :| 0 <= i < |front| && front[i].Close? {
      assert events[i].Close?;
    }
  }

  lemma SamePrefix(events: seq<Event>, n: nat, i: nat)
    requires i <= n <= |events|
    ensures events[..n][..i] == events[..i]
  {
  }

  lemma OpensBefore(events: seq<Event>, n: nat, i: nat)
    requires i < n <= |events|
    ensures OpensAt(events[..n], i) <==> OpensAt(events, i)
  {
    SamePrefix(events, n, i);
  }

  lemma RecordsLater(config: Config, resumedFrom: Option<string>, events: seq<Event>, n: nat, i: nat, s: Span, outcome: string, end: nat)
    requires i < n <= |events| && OpensAt(events[..n], i) && Records(config, resumedFrom, events[..n], i, s, outcome, end)
    ensures OpensAt(events, i) && Records(config, resumedFrom, events, i, s, outcome, end)
  {
    OpensBefore(events, n, i);
    SamePrefix(events, n, i);
    forall k | 0 <= k < i
      ensures OpensAt(events[..n], k) <==> OpensAt(events, k)
    {
      OpensBefore(events, n, k);
    }
    var link :| LinkOf(resumedFrom, events[..n], i, link) && Get(s.attributes, ResumedFromKey) == if link.Some? then Some(Str(link.value)) else None;
    assert LinkOf(resumedFrom, events, i, link);
  }

  lemma EnclosingIsLast(outer: string, inner: string)
    requires Encloses(outer, inner)
    ensures LastSeparator(inner) == |outer| < |inner| && outer == inner[..|outer|]
  {
    assert inner[|outer|] == (outer + "|")[|outer|] == '|';
    forall j | |outer| < j < |inner|
      ensures inner[j] != '|'
    {
      assert inner[j] == inner[|outer| + 1..][j - |outer| - 1];
    }
  }

  lemma SeparatorEncloses(inner: string, i: nat)
    requires i < |inner| && inner[i] == '|' && forall j | i < j < |inner| :: inner[j] != '|'
    ensures Encloses(inner[..i], inner)
  {
    assert inner[..i] + "|" == inner[..i + 1];
  }

  lemma EnclosesIs(outer: string, inner: string)
    ensures Encloses(outer, inner) <==> LastSeparator(inner) < |inner| && outer == inner[..LastSeparator(inner)]
  {
    if Encloses(outer, inner) { EnclosingIsLast(outer, inner); }
    if LastSeparator(inner) < |inner| { SeparatorEncloses(inner, LastSeparator(inner)); }
  }

  // ---------------------------------------------------------------- the handler agrees with its history

  /** An open Step of an index is the one the events name. */
  ghost predicate Indexes(config: Config, resumedFrom: Option<string>, events: seq<Event>, step: OpenStep, i: nat) {
    && i < |events| && OpensAt(events, i) && step.namespace == events[i].namespace.value
    && Records(config, resumedFrom, events, i, step.span, "passed", events[i].at)
  }

  ghost predicate RunIdAgrees(config: Config, resumedFrom: Option<string>, events: seq<Event>, open: map<string, OpenStep>, r: string) {
    && (r in open <==> OpenUnder(events, r).Some?)
    && (r in open ==> Indexes(config, resumedFrom, events, open[r], OpenUnder(events, r).value) && events[OpenUnder(events, r).value].runId == r)
  }

  ghost predicate RunIdsAgree(config: Config, resumedFrom: Option<string>, events: seq<Event>, open: map<string, OpenStep>) {
    forall r :: RunIdAgrees(config, resumedFrom, events, open, r)
  }

  ghost predicate NamespaceAgrees(config: Config, resumedFrom: Option<string>, events: seq<Event>, open: map<string, OpenStep>, ns: string) {
    && (ns in open <==> OpenIn(events, ns).Some?)
    && (ns in open ==> Indexes(config, resumedFrom, events, open[ns], OpenIn(events, ns).value) && open[ns].namespace == ns)
  }

  ghost predicate NamespacesAgree(config: Config, resumedFrom: Option<string>, events: seq<Event>, open: map<string, OpenStep>) {
    forall ns :: NamespaceAgrees(config, resumedFrom, events, open, ns)
  }

  ghost predicate AnyOpened(events: seq<Event>) {
    exists i | 0 <= i < |events| :: OpensAt(events, i)
  }

  ghost predicate Agrees(config: Config, resumedFrom: Option<string>, events: seq<Event>, h: Handler) {
    && h.config == config && (h.closed <==> ClosedIn(events))
    && h.resumedFrom == (if AnyOpened(events) then None else resumedFrom)
    && RunIdsAgree(config, resumedFrom, events, h.byRunId) && NamespacesAgree(config, resumedFrom, events, h.byNamespace)
  }

  lemma AnyOneMore(events: seq<Event>)
    requires |events| > 0
    ensures AnyOpened(events) <==> AnyOpened(events[..|events| - 1]) || OpensAt(events, |events| - 1)
  {
    var front := events[..|events| - 1];
    forall i | 0 <= i < |front|
      ensures OpensAt(front, i) <==> OpensAt(events, i)
    {
      OpensBefore(events, |front|, i);
    }
  }

  lemma IndexesLater(config: Config, resumedFrom: Option<string>, events: seq<Event>, step: OpenStep, i: nat)
    requires |events| > 0 && Indexes(config, resumedFrom, events[..|events| - 1], step, i)
    ensures Indexes(config, resumedFrom, events, step, i) && events[i] == events[..|events| - 1][i]
  {
    RecordsLater(config, resumedFrom, events, |events| - 1, i, step.span, "passed", events[i].at);
  }

  lemma NewStepHangsUnder(config: Config, resumedFrom: Option<string>, events: seq<Event>, h: Handler)
    requires |events| > 0 && Agrees(config, resumedFrom, events[..|events| - 1], h) && Opens(h, Last(events))
    ensures NewStep(h, Last(events)).parentId.Some? && HangsUnder(config, events, |events| - 1, NewStep(h, Last(events)).parentId.value)
  {
    var front, ns := events[..|events| - 1], Last(events).namespace.value;
    forall outer
      ensures Encloses(outer, ns) <==> LastSeparator(ns) < |ns| && outer == ns[..LastSeparator(ns)]
    {
      EnclosesIs(outer, ns);
    }
    var i := LastSeparator(ns);
    if i < |ns| {
      var outer := ns[..i];
      assert NamespaceAgrees(config, resumedFrom, front, h.byNamespace, outer);
      if outer in h.byNamespace {
        assert Indexes(config, resumedFrom, front, h.byNamespace[outer], OpenIn(front, outer).value);
      }
    }
  }

  lemma NewStepRecords(config: Config, resumedFrom: Option<string>, events: seq<Event>, h: Handler)
    requires |events| > 0 && Agrees(config, resumedFrom, events[..|events| - 1], h) && Opens(h, Last(events))
    ensures OpensAt(events, |events| - 1)
    ensures Records(config, resumedFrom, events, |events| - 1, NewStep(h, Last(events)), "passed", Last(events).at)
  {
    var n := |events| - 1;
    NewStepHangsUnder(config, resumedFrom, events, h);
    assert forall k | 0 <= k < n :: OpensAt(events[..n], k) <==> OpensAt(events, k) by {
      forall k | 0 <= k < n
        ensures OpensAt(events[..n], k) <==> OpensAt(events, k)
      {
        OpensBefore(events, n, k);
      }
    }
    assert LinkOf(resumedFrom, events, n, h.resumedFrom);
  }

  lemma OpensWhen(config: Config, resumedFrom: Option<string>, events: seq<Event>, h: Handler)
    requires |events| > 0 && Agrees(config, resumedFrom, events[..|events| - 1], h)
    ensures Opens(h, Last(events)) <==> OpensAt(events, |events| - 1)
  {
  }

  /** After a close nothing is open. */
  lemma {:induction false} ClosedHasNone(events: seq<Event>, r: string)
    requires ClosedIn(events)
    ensures OpenUnder(events, r).None? && OpenIn(events, r).None?
  {
    var front := events[..|events| - 1];
    ClosedOneMore(events);
    if !Last(events).Close? {
      ClosedHasNone(front, r);
    }
  }

  /** How one event moves an index. */
  predicate Takes(h: Handler, e: Event, r: string) {
    Opens(h, e) && e.runId == r
  }

  lemma NextRunIds(h: Handler, e: Event, r: string)
    requires h.closed ==> r !in h.byRunId
    ensures
      var k := Next(h, e);
      && (r in k.byRunId <==> Takes(h, e, r) || (r in h.byRunId && !e.Close? && !(!e.Start? && e.runId == r)))
      && (Takes(h, e, r) ==> k.byRunId[r] == OpenStep(NewStep(h, e), e.namespace.value))
      && (r in k.byRunId && !Takes(h, e, r) ==> k.byRunId[r] == h.byRunId[r])
  {
  }

  lemma OpenUnderIs(events: seq<Event>, r: string)
    requires |events| > 0
    ensures
      var n, front, e := |events| - 1, events[..|events| - 1], Last(events);
      var takes := e.Start? && OpensAt(events, n) && e.runId == r;
      OpenUnder(events, r) == if takes then Some(n) else if e.Close? || (!e.Start? && e.runId == r) then None else OpenUnder(front, r)
  {
  }

  lemma RunIdStays(config: Config, resumedFrom: Option<string>, events: seq<Event>, h: Handler, r: string)
    requires |events| > 0 && (Opens(h, Last(events)) <==> OpensAt(events, |events| - 1)) && (h.closed ==> r !in h.byRunId)
    requires r in h.byRunId <==> OpenUnder(events[..|events| - 1], r).Some?
    ensures
      var k, n, e := Next(h, Last(events)), |events| - 1, Last(events);
      && (r in k.byRunId <==> OpenUnder(events, r).Some?)
      && (r in k.byRunId ==> OpenUnder(events, r) == if Takes(h, e, r) then Some(n) else OpenUnder(events[..n], r))
      && (r in k.byRunId && !Takes(h, e, r) ==> r in h.byRunId && k.byRunId[r] == h.byRunId[r])
  {
    NextRunIds(h, Last(events), r);
    OpenUnderIs(events, r);
  }

  lemma RunIdOn(config: Config, resumedFrom: Option<string>, events: seq<Event>, h: Handler, r: string)
    requires |events| > 0 && (Opens(h, Last(events)) <==> OpensAt(events, |events| - 1)) && (h.closed ==> r !in h.byRunId)
    requires Opens(h, Last(events)) ==> Records(config, resumedFrom, events, |events| - 1, NewStep(h, Last(events)), "passed", Last(events).at)
    requires RunIdAgrees(config, resumedFrom, events[..|events| - 1], h.byRunId, r)
    ensures RunIdAgrees(config, resumedFrom, events, Next(h, Last(events)).byRunId, r)
  {
    var n, e, k := |events| - 1, Last(events), Next(h, Last(events));
    RunIdStays(config, resumedFrom, events, h, r);
    if r in k.byRunId {
      if Takes(h, e, r) {
        NextRunIds(h, e, r);
      } else {
        IndexesLater(config, resumedFrom, events, h.byRunId[r], OpenUnder(events[..n], r).value);
      }
    }
  }

  lemma RunIdsOn(config: Config, resumedFrom: Option<string>, events: seq<Event>, h: Handler)
    requires |events| > 0 && Agrees(config, resumedFrom, events[..|events| - 1], h)
    ensures RunIdsAgree(config, resumedFrom, events, Next(h, Last(events)).byRunId)
  {
    var front, k := events[..|events| - 1], Next(h, Last(events));
    OpensWhen(config, resumedFrom, events, h);
    if Opens(h, Last(events)) {
      NewStepRecords(config, resumedFrom, events, h);
    }
    forall r
      ensures RunIdAgrees(config, resumedFrom, events, k.byRunId, r)
    {
      assert RunIdAgrees(config, resumedFrom, front, h.byRunId, r);
      if h.closed {
        ClosedHasNone(front, r);
      }
      RunIdOn(config, resumedFrom, events, h, r);
    }
  }

  /** A Step whose end takes a namespace out of its index. */
  predicate Pops(h: Handler, e: Event, ns: string) {
    (e.End? || e.Error?) && e.runId in h.byRunId && h.byRunId[e.runId].namespace == ns
  }

  predicate Fills(h: Handler, e: Event, ns: string) {
    Opens(h, e) && e.namespace == Some(ns)
  }

  lemma NextNamespaces(h: Handler, e: Event, ns: string)
    requires h.closed ==> ns !in h.byNamespace
    ensures
      var k := Next(h, e);
      && (ns in k.byNamespace <==> Fills(h, e, ns) || (ns in h.byNamespace && !e.Close? && !Pops(h, e, ns)))
      && (Fills(h, e, ns) ==> k.byNamespace[ns] == OpenStep(NewStep(h, e), ns))
      && (ns in k.byNamespace && !Fills(h, e, ns) ==> k.byNamespace[ns] == h.byNamespace[ns])
  {
  }

  lemma OpenInIs(events: seq<Event>, ns: string)
    requires |events| > 0
    ensures
      var n, front, e := |events| - 1, events[..|events| - 1], Last(events);
      var fills := e.Start? && OpensAt(events, n) && e.namespace == Some(ns);
      var pops := !e.Start? && !e.Close? && OpenUnder(front, e.runId).Some? && events[OpenUnder(front, e.runId).value].namespace == Some(ns);
      OpenIn(events, ns) == if fills then Some(n) else if e.Close? || pops then None else OpenIn(front, ns)
  {
  }

  lemma PopsWhen(config: Config, resumedFrom: Option<string>, events: seq<Event>, h: Handler, ns: string)
    requires |events| > 0 && RunIdsAgree(config, resumedFrom, events[..|events| - 1], h.byRunId)
    ensures
      var front, e := events[..|events| - 1], Last(events);
      Pops(h, e, ns) <==> !e.Start? && !e.Close? && OpenUnder(front, e.runId).Some? && events[OpenUnder(front, e.runId).value].namespace == Some(ns)
  {
    var front, e := events[..|events| - 1], Last(events);
    if !e.Start? && !e.Close? {
      assert RunIdAgrees(config, resumedFrom, front, h.byRunId, e.runId);
    }
  }

  lemma NamespaceOn(config: Config, resumedFrom: Option<string>, events: seq<Event>, h: Handler, ns: string)
    requires |events| > 0 && (Opens(h, Last(events)) <==> OpensAt(events, |events| - 1)) && (h.closed ==> ns !in h.byNamespace)
    requires Opens(h, Last(events)) ==> Records(config, resumedFrom, events, |events| - 1, NewStep(h, Last(events)), "passed", Last(events).at)
    requires RunIdsAgree(config, resumedFrom, events[..|events| - 1], h.byRunId)
    requires NamespaceAgrees(config, resumedFrom, events[..|events| - 1], h.byNamespace, ns)
    ensures NamespaceAgrees(config, resumedFrom, events, Next(h, Last(events)).byNamespace, ns)
  {
    var n, e, k := |events| - 1, Last(events), Next(h, Last(events));
    PopsWhen(config, resumedFrom, events, h, ns);
    NextNamespaces(h, e, ns);
    OpenInIs(events, ns);
    if ns in k.byNamespace && !Fills(h, e, ns) {
      IndexesLater(config, resumedFrom, events, h.byNamespace[ns], OpenIn(events[..n], ns).value);
    }
  }

  lemma NamespacesOn(config: Config, resumedFrom: Option<string>, events: seq<Event>, h: Handler)
    requires |events| > 0 && Agrees(config, resumedFrom, events[..|events| - 1], h)
    ensures NamespacesAgree(config, resumedFrom, events, Next(h, Last(events)).byNamespace)
  {
    var front, k := events[..|events| - 1], Next(h, Last(events));
    OpensWhen(config, resumedFrom, events, h);
    if Opens(h, Last(events)) {
      NewStepRecords(config, resumedFrom, events, h);
    }
    forall ns
      ensures NamespaceAgrees(config, resumedFrom, events, k.byNamespace, ns)
    {
      assert NamespaceAgrees(config, resumedFrom, front, h.byNamespace, ns);
      if h.closed {
        ClosedHasNone(front, ns);
      }
      NamespaceOn(config, resumedFrom, events, h, ns);
    }
  }

  lemma FieldsOn(config: Config, resumedFrom: Option<string>, events: seq<Event>, h: Handler)
    requires |events| > 0 && Agrees(config, resumedFrom, events[..|events| - 1], h)
    ensures
      var k := Next(h, Last(events));
      k.config == config && (k.closed <==> ClosedIn(events)) && k.resumedFrom == (if AnyOpened(events) then None else resumedFrom)
  {
    OpensWhen(config, resumedFrom, events, h);
    ClosedOneMore(events);
    AnyOneMore(events);
  }

  /** After any events, the indexes hold exactly the Steps the events leave open, each recorded as its start event says. */
  lemma {:induction false} HandlerAgrees(config: Config, resumedFrom: Option<string>, events: seq<Event>)
    ensures Agrees(config, resumedFrom, events, After(Initial(config, resumedFrom), events))
  {
    if |events| > 0 {
      var front := events[..|events| - 1];
      var h := After(Initial(config, resumedFrom), front);
      HandlerAgrees(config, resumedFrom, front);
      RunIdsOn(config, resumedFrom, events, h);
      NamespacesOn(config, resumedFrom, events, h);
      FieldsOn(config, resumedFrom, events, h);
    }
  }

  // ---------------------------------------------------------------- what each event exports

  /** What one event ends, and with which outcome: a Step that ended, paused or failed. */
  ghost predicate Ends(e: Event, runId: string, outcome: string) {
    || (e.End? && e.runId == runId && outcome == "passed")
    || (e.Error? && e.runId == runId && outcome == if e.interrupt then "awaiting_approval" else "failed")
  }

  lemma SettledRecords(config: Config, resumedFrom: Option<string>, events: seq<Event>, i: nat, s: Span, outcome: string, at: nat)
    requires i < |events| && OpensAt(events, i) && Records(config, resumedFrom, events, i, s, "passed", events[i].at)
    ensures Records(config, resumedFrom, events, i, Settled(s, outcome, at), outcome, at)
    ensures Records(config, resumedFrom, events, i, s.(end := at), "passed", at)
  {
    var link :| LinkOf(resumedFrom, events, i, link) && Get(s.attributes, ResumedFromKey) == if link.Some? then Some(Str(link.value)) else None;
    assert Get(Settled(s, outcome, at).attributes, ResumedFromKey) == Get(s.attributes, ResumedFromKey);
  }

  /**
   An end or error event exports the one Step open under its run id, if there is one, with the outcome it
   stands for and its own time; a start event exports nothing.
   */
  lemma EventExports(config: Config, resumedFrom: Option<string>, events: seq<Event>)
    requires |events| > 0 && !Last(events).Close?
    ensures
      var front, e := events[..|events| - 1], Last(events);
      var before, after := After(Initial(config, resumedFrom), front).ended, After(Initial(config, resumedFrom), events).ended;
      if e.Start? || OpenUnder(front, e.runId).None? then after == before
      else
        var i := OpenUnder(front, e.runId).value;
        OpensAt(events, i) && exists s, outcome :: after == before + multiset{Ended(Some(e.runId), s)} && Ends(e, e.runId, outcome)
                                                    && Records(config, resumedFrom, events, i, s, outcome, e.at)
  {
    var front, e := events[..|events| - 1], Last(events);
    var h := After(Initial(config, resumedFrom), front);
    HandlerAgrees(config, resumedFrom, front);
    if !e.Start? {
      assert RunIdAgrees(config, resumedFrom, front, h.byRunId, e.runId);
    }
    if !e.Start? && e.runId in h.byRunId {
      var i, s := OpenUnder(front, e.runId).value, h.byRunId[e.runId].span;
      IndexesLater(config, resumedFrom, events, h.byRunId[e.runId], i);
      var outcome := if e.End? then "passed" else if e.interrupt then "awaiting_approval" else "failed";
      SettledRecords(config, resumedFrom, events, i, s, outcome, e.at);
      var t := if e.End? then s.(end := e.at) else Settled(s, outcome, e.at);
      assert After(Initial(config, resumedFrom), events).ended == h.ended + multiset{Ended(Some(e.runId), t)};
    }
  }

  /** Exactly the paused Steps are listed as awaiting approval, under their span id and namespace. */
  lemma PausesAreListed(config: Config, resumedFrom: Option<string>, events: seq<Event>)
    requires |events| > 0
    ensures
      var front, e := events[..|events| - 1], Last(events);
      var before, after := After(Initial(config, resumedFrom), front).awaiting, After(Initial(config, resumedFrom), events).awaiting;
      if e.Error? && e.interrupt && OpenUnder(front, e.runId).Some? then
        var i := OpenUnder(front, e.runId).value;
        after == before + [(events[i].spanId, events[i].namespace.value)]
      else after == before
  {
    var front, e := events[..|events| - 1], Last(events);
    HandlerAgrees(config, resumedFrom, front);
    if e.Error? {
      assert RunIdAgrees(config, resumedFrom, front, After(Initial(config, resumedFrom), front).byRunId, e.runId);
    }
  }

  /** The Run's own span, from the first Step's start. */
  predicate RecordsRun(config: Config, s: Span, start: nat, end: nat) {
    && s.spanId == config.Root() && s.traceId == config.Trace() && s.parentId.None? && s.name == RunName && s.start == start && s.end == end
    && Get(s.attributes, GraphKey) == Some(Str(config.graph)) && Get(s.attributes, RunKey) == Some(Str(config.RunText()))
    && Get(s.attributes, SubjectKey) == Some(Str(config.subject)) && Get(s.attributes, SubjectTypeKey) == Some(Str(config.subjectType))
    && Get(s.attributes, VersionKey) == Some(Str("0.4.0"))
  }

  ghost predicate FirstOpened(events: seq<Event>, i: nat) {
    i < |events| && OpensAt(events, i) && forall k | 0 <= k < i :: !OpensAt(events, k)
  }

  ghost predicate RunAgrees(config: Config, events: seq<Event>, run: Option<Span>) {
    && (run.Some? <==> AnyOpened(events))
    && (run.Some? ==> exists i: nat :: FirstOpened(events, i) && RecordsRun(config, run.value, events[i].at, events[i].at))
  }

  lemma FirstLater(events: seq<Event>, n: nat, i: nat)
    requires n <= |events| && FirstOpened(events[..n], i)
    ensures FirstOpened(events, i)
  {
    OpensBefore(events, n, i);
    forall k | 0 <= k < i
      ensures !OpensAt(events, k)
    {
      OpensBefore(events, n, k);
      assert !OpensAt(events[..n], k);
    }
  }

  lemma RunSpanRecords(config: Config, at: nat)
    ensures RecordsRun(config, RunSpan(config, at), at, at)
  {
  }

  lemma NextRun(h: Handler, e: Event)
    ensures Next(h, e).run == if Opens(h, e) && h.run.None? then Some(RunSpan(h.config, e.at)) else h.run
  {
  }

  lemma RunStays(config: Config, events: seq<Event>, run: Option<Span>)
    requires |events| > 0 && run.Some? && RunAgrees(config, events[..|events| - 1], run)
    ensures RunAgrees(config, events, run)
  {
    AnyOneMore(events);
    var i: nat :| FirstOpened(events[..|events| - 1], i) && RecordsRun(config, run.value, events[i].at, events[i].at);
    FirstLater(events, |events| - 1, i);
  }

  lemma NewIsFirst(events: seq<Event>)
    requires |events| > 0 && !AnyOpened(events[..|events| - 1]) && OpensAt(events, |events| - 1)
    ensures FirstOpened(events, |events| - 1)
  {
    forall k | 0 <= k < |events| - 1
      ensures !OpensAt(events, k)
    {
      OpensBefore(events, |events| - 1, k);
    }
  }

  lemma RunOn(config: Config, resumedFrom: Option<string>, events: seq<Event>, h: Handler)
    requires |events| > 0 && Agrees(config, resumedFrom, events[..|events| - 1], h) && RunAgrees(config, events[..|events| - 1], h.run)
    ensures RunAgrees(config, events, Next(h, Last(events)).run)
  {
    OpensWhen(config, resumedFrom, events, h);
    NextRun(h, Last(events));
    if h.run.Some? {
      RunStays(config, events, h.run);
    } else {
      AnyOneMore(events);
      if Opens(h, Last(events)) {
        RunSpanRecords(config, Last(events).at);
        NewIsFirst(events);
      }
    }
  }

  lemma {:induction false} RunIsFirst(config: Config, resumedFrom: Option<string>, events: seq<Event>)
    ensures RunAgrees(config, events, After(Initial(config, resumedFrom), events).run)
  {
    if |events| > 0 {
      var front := events[..|events| - 1];
      RunIsFirst(config, resumedFrom, front);
      HandlerAgrees(config, resumedFrom, front);
      RunOn(config, resumedFrom, events, After(Initial(config, resumedFrom), front));
    }
  }

  /** The Steps a close ends: those still open, each once, as failures. */
  ghost predicate EndsOpen(config: Config, resumedFrom: Option<string>, events: seq<Event>, leaked: set<Ended>, at: nat) {
    && (forall x | x in leaked :: x.runId.Some? && OpenUnder(events, x.runId.value).Some? && OpensAt(events, OpenUnder(events, x.runId.value).value)
                                  && Records(config, resumedFrom, events, OpenUnder(events, x.runId.value).value, x.span, "failed", at))
    && (forall x, y | x in leaked && y in leaked && x.runId == y.runId :: x == y)
    && (forall r | OpenUnder(events, r).Some? :: exists x :: x in leaked && x.runId == Some(r))
  }

  lemma LeakedEndsOpen(config: Config, resumedFrom: Option<string>, events: seq<Event>, open: map<string, OpenStep>, at: nat)
    requires RunIdsAgree(config, resumedFrom, events, open)
    ensures EndsOpen(config, resumedFrom, events, Leaked(open, at), at)
  {
    var leaked := Leaked(open, at);
    forall x | x in leaked
      ensures x.runId.Some? && OpenUnder(events, x.runId.value).Some? && OpensAt(events, OpenUnder(events, x.runId.value).value)
      ensures Records(config, resumedFrom, events, OpenUnder(events, x.runId.value).value, x.span, "failed", at)
    {
      var r :| r in open && x == Ended(Some(r), Settled(open[r].span, FAILED, at));
      assert RunIdAgrees(config, resumedFrom, events, open, r);
      SettledRecords(config, resumedFrom, events, OpenUnder(events, r).value, open[r].span, "failed", at);
    }
    forall r | OpenUnder(events, r).Some?
      ensures exists x :: x in leaked && x.runId == Some(r)
    {
      assert RunIdAgrees(config, resumedFrom, events, open, r);
      assert Ended(Some(r), Settled(open[r].span, FAILED, at)) in leaked;
    }
  }

  /** The Run's own span, exported if the handler opened one and it is a new Run. */
  ghost predicate EndsRun(config: Config, events: seq<Event>, run: multiset<Ended>, at: nat) {
    if config.NewRun? && AnyOpened(events)
    then exists i: nat, s: Span :: FirstOpened(events, i) && RecordsRun(config, s, events[i].at, at) && run == multiset{Ended(None, s)}
    else run == multiset{}
  }

  lemma RunEndedEnds(config: Config, events: seq<Event>, h: Handler, at: nat)
    requires h.config == config && RunAgrees(config, events, h.run)
    ensures EndsRun(config, events, RunEnded(h, at), at)
  {
    if config.NewRun? && AnyOpened(events) {
      var i: nat :| FirstOpened(events, i) && RecordsRun(config, h.run.value, events[i].at, events[i].at);
      assert RecordsRun(config, h.run.value.(end := at), events[i].at, at);
    }
  }

  /**
   The first close exports every Step still open, as a failure, and the Run's own span; a later close
   exports nothing.
   */
  lemma CloseExports(config: Config, resumedFrom: Option<string>, events: seq<Event>)
    requires |events| > 0 && Last(events).Close?
    ensures
      var front, at := events[..|events| - 1], Last(events).at;
      var before, after := After(Initial(config, resumedFrom), front).ended, After(Initial(config, resumedFrom), events).ended;
      if ClosedIn(front) then after == before
      else
        exists leaked: set<Ended>, run: multiset<Ended> ::
          after == before + multiset(leaked) + run && EndsOpen(config, resumedFrom, front, leaked, at) && EndsRun(config, front, run, at)
  {
    var front, at := events[..|events| - 1], Last(events).at;
    var h := After(Initial(config, resumedFrom), front);
    HandlerAgrees(config, resumedFrom, front);
    RunIsFirst(config, resumedFrom, front);
    LeakedEndsOpen(config, resumedFrom, front, h.byRunId, at);
    RunEndedEnds(config, front, h, at);
    if !ClosedIn(front) {
      assert After(Initial(config, resumedFrom), events).ended == h.ended + multiset(Leaked(h.byRunId, at)) + RunEnded(h, at);
    }
  }
}

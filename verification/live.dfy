/**
 Live Runs: an idempotent fold over lifecycle events, a reconnecting watch, and a clock-bounded wait
 for the durable record (src/cord_runtime/live_reconciliation.py, src/cord_runtime/aegra_client.py).
 */
module Live {
  import opened Basics

  /** An event id by its text and the number after `_event_`, if that reads as one. */
  datatype EventId = EventId(text: string, number: Option<int>)

  function Sequence(id: EventId): int {
    if id.text == "" || id.number.None? then 0 else id.number.value
  }

  /** A lifecycle event; an `end` carries the status its data names, if any. */
  datatype Kind = Metadata | End(status: string) | ErrorEvent

  datatype Event = Event(kind: Kind, id: Option<EventId>)

  predicate IsTerminal(e: Event) {
    e.kind.End? || e.kind.ErrorEvent?
  }

  // ---------------------------------------------------------------- the fold

  datatype State = State(status: string, lastSeq: int, completedAt: Option<real>)

  const PENDING: State := State("pending", -1, None)

  function Completed(s: State, status: string, now: real): State {
    s.(status := status, completedAt := if s.completedAt.Some? then s.completedAt else Some(now))
  }

  function Folded(s: State, e: Event, now: real): State {
    match e.kind
    case End(status) => Completed(s, if status == "" then "success" else status, now)
    case ErrorEvent => Completed(s, "error", now)
    case Metadata => if s.status == "pending" then s.(status := "running") else s
  }

  function Applied(s: State, e: Event, now: real): State {
    if e.id.Some? && Sequence(e.id.value) <= s.lastSeq then s
    else Folded(if e.id.Some? then s.(lastSeq := Sequence(e.id.value)) else s, e, now)
  }

  class LiveRun {
    const runId: string
    const threadId: string
    var status: string
    var lastEventSeq: int
    var completedAt: Option<real>

    function Value(): State
      reads this
    {
      State(status, lastEventSeq, completedAt)
    }

    constructor (runId: string, threadId: string)
      ensures Value() == PENDING && this.runId == runId && this.threadId == threadId
    {
      this.runId, this.threadId := runId, threadId;
      status, lastEventSeq, completedAt := "pending", -1, None;
    }

    method Apply(e: Event, now: real)
      modifies this
      ensures Value() == Applied(old(Value()), e, now)
    {
      if e.id.Some? {
        var n := Sequence(e.id.value);
        if n <= lastEventSeq { return; }
        lastEventSeq := n;
      }
      if e.kind.End? {
        status := if e.kind.status == "" then "success" else e.kind.status;
        if completedAt.None? { completedAt := Some(now); }
      } else if e.kind.ErrorEvent? {
        status := "error";
        if completedAt.None? { completedAt := Some(now); }
      } else if status == "pending" {
        status := "running";
      }
    }
  }

  /** What a caller folds: events with the time each is applied. */
  datatype Delivery = Delivery(event: Event, now: real)

  function FoldAll(s: State, ds: seq<Delivery>): State {
    if |ds| == 0 then s else Applied(FoldAll(s, ds[..|ds| - 1]), Last(ds).event, Last(ds).now)
  }

  /** A completion time never moves, and the sequence never falls back. */
  lemma {:induction false} NeverRegresses(s: State, ds: seq<Delivery>)
    ensures s.completedAt.Some? ==> FoldAll(s, ds).completedAt == s.completedAt
    ensures FoldAll(s, ds).lastSeq >= s.lastSeq
  {
    if |ds| > 0 {
      NeverRegresses(s, ds[..|ds| - 1]);
    }
  }

  // ---------------------------------------------------------------- replays

  /** The server's log of one Run: numbered events, in order. */
  ghost predicate Ordered(log: seq<Event>) {
    && (forall i | 0 <= i < |log| :: log[i].id.Some? && log[i].id.value.text != "" && Sequence(log[i].id.value) >= 0)
    && (forall i, j | 0 <= i < j < |log| :: Sequence(log[i].id.value) < Sequence(log[j].id.value))
    && (forall i, j | 0 <= i < j < |log| :: log[i].id.value.text != log[j].id.value.text)
  }

  /** How much of the log `ds` has covered: each delivery repeats a covered event or is the next one. */
  ghost predicate Covers(log: seq<Event>, ds: seq<Delivery>, m: nat)
    decreases |ds|
  {
    m <= |log| &&
    if |ds| == 0 then m == 0
    else
      var before, e := ds[..|ds| - 1], Last(ds).event;
      || (Covers(log, before, m) && exists j | 0 <= j < m :: log[j] == e)
      || (m > 0 && Covers(log, before, m - 1) && log[m - 1] == e)
  }

  /** The deliveries that were new, in order. */
  function Firsts(ds: seq<Delivery>): seq<Delivery> {
    if |ds| == 0 then []
    else
      var before := Firsts(ds[..|ds| - 1]);
      if exists d | d in before :: d.event == Last(ds).event then before else before + [Last(ds)]
  }

  function Events(ds: seq<Delivery>): (es: seq<Event>)
    ensures |es| == |ds| && forall i | 0 <= i < |es| :: es[i] == ds[i].event
  {
    seq(|ds|, i requires 0 <= i < |ds| => ds[i].event)
  }

  lemma NewIsNew(log: seq<Event>, m: nat, before: seq<Delivery>, e: Event)
    requires Ordered(log) && m <= |log| && Events(before) == log[..m]
    ensures (exists d | d in before :: d.event == e) <==> exists j | 0 <= j < m :: log[j] == e
    ensures m < |log| && log[m] == e ==> forall d | d in before :: d.event != e
  {
    forall i | 0 <= i < |before|
      ensures before[i].event == log[i] && before[i] in before
    {
      assert Events(before)[i] == log[..m][i];
    }
  }

  /** State after the first `m` events of an ordered log: the last one applied is the latest. */
  lemma {:induction false} FoldOfPrefix(log: seq<Event>, ds: seq<Delivery>, m: nat)
    requires Ordered(log) && m <= |log| && Events(ds) == log[..m]
    ensures FoldAll(PENDING, ds).lastSeq == if m == 0 then -1 else Sequence(log[m - 1].id.value)
  {
    if m > 0 {
      var front := ds[..|ds| - 1];
      assert Events(front) == log[..m - 1] by {
        assert forall i | 0 <= i < m - 1 :: Events(ds)[i] == log[..m][i];
      }
      FoldOfPrefix(log, front, m - 1);
      assert Last(ds).event == Events(ds)[m - 1] == log[m - 1];
    }
  }

  /** What replays leave: the prefix of the log that came, folded once each. */
  ghost predicate SameAsOnce(log: seq<Event>, ds: seq<Delivery>, m: nat)
    requires m <= |log|
  {
    Events(Firsts(ds)) == log[..m] && FoldAll(PENDING, ds) == FoldAll(PENDING, Firsts(ds))
  }

  lemma ReplayedAgain(log: seq<Event>, front: seq<Delivery>, d: Delivery, m: nat)
    requires Ordered(log) && m <= |log| && SameAsOnce(log, front, m) && exists j | 0 <= j < m :: log[j] == d.event
    ensures SameAsOnce(log, front + [d], m)
  {
    assert (front + [d])[..|front|] == front;
    NewIsNew(log, m, Firsts(front), d.event);
    FoldOfPrefix(log, Firsts(front), m);
    ReplayIsSkipped(log, m, FoldAll(PENDING, front), d);
  }

  lemma DeliveredFirst(log: seq<Event>, front: seq<Delivery>, d: Delivery, m: nat)
    requires Ordered(log) && m < |log| && SameAsOnce(log, front, m) && log[m] == d.event
    ensures SameAsOnce(log, front + [d], m + 1)
  {
    assert (front + [d])[..|front|] == front;
    NewIsNew(log, m, Firsts(front), d.event);
    var once := Firsts(front) + [d];
    assert Firsts(front + [d]) == once && once[..|once| - 1] == Firsts(front);
    assert Events(once) == Events(Firsts(front)) + [d.event] == log[..m] + [log[m]] == log[..m + 1];
  }

  /**
   Whatever is replayed and wherever connections drop, folding what was delivered is folding a
   prefix of the log, each event once, at the time it first came.
   */
  lemma {:induction false} ReplaysChangeNothing(log: seq<Event>, ds: seq<Delivery>, m: nat)
    requires Ordered(log) && Covers(log, ds, m)
    ensures Events(Firsts(ds)) == log[..m]
    ensures FoldAll(PENDING, ds) == FoldAll(PENDING, Firsts(ds))
    decreases |ds|
  {
    if |ds| > 0 {
      var front, d := ds[..|ds| - 1], Last(ds);
      assert front + [d] == ds;
      if Covers(log, front, m) && exists j | 0 <= j < m :: log[j] == d.event {
        ReplaysChangeNothing(log, front, m);
        ReplayedAgain(log, front, d, m);
      } else {
        ReplaysChangeNothing(log, front, m - 1);
        DeliveredFirst(log, front, d, m - 1);
      }
    }
  }

  lemma ReplayIsSkipped(log: seq<Event>, m: nat, s: State, d: Delivery)
    requires Ordered(log) && 0 < m <= |log| && s.lastSeq == Sequence(log[m - 1].id.value) && exists j | 0 <= j < m :: log[j] == d.event
    ensures Applied(s, d.event, d.now) == s
  {
    var j :| 0 <= j < m && log[j] == d.event;
    assert j < m - 1 ==> Sequence(log[j].id.value) < Sequence(log[m - 1].id.value);
  }

  // ---------------------------------------------------------------- what is shown

  /** The status a terminal event names; an `end` without one is a success. */
  function Named(kind: Kind): string
    requires kind.End? || kind.ErrorEvent?
  {
    if kind.ErrorEvent? then "error" else if kind.status == "" then "success" else kind.status
  }

  /** No event of the stretch is terminal. */
  ghost predicate Running(ds: seq<Delivery>) {
    forall i | 0 <= i < |ds| :: !IsTerminal(ds[i].event)
  }

  /** The status and the time shown for a stretch of events, each new when it came. */
  ghost predicate Shows(ds: seq<Delivery>, s: State) {
    if Running(ds) then s.status == (if |ds| == 0 then "pending" else "running") && s.completedAt.None?
    else
      && (exists i | 0 <= i < |ds| :: IsTerminal(ds[i].event) && Running(ds[..i]) && s.completedAt == Some(ds[i].now))
      && (forall j | 0 <= j < |ds| && IsTerminal(ds[j].event) && Running(ds[j + 1..]) && Named(ds[j].event.kind) != "pending" ::
            s.status == Named(ds[j].event.kind))
  }

  lemma RunningOneMore(ds: seq<Delivery>, d: Delivery)
    ensures Running(ds + [d]) <==> Running(ds) && !IsTerminal(d.event)
  {
    assert (ds + [d])[|ds|] == d;
    assert forall i | 0 <= i < |ds| :: (ds + [d])[i] == ds[i];
  }

  lemma ShowsFirstTerminal(ds: seq<Delivery>, d: Delivery, s: State, v: State)
    requires Running(ds) && Shows(ds, s) && IsTerminal(d.event)
    requires v.status == Named(d.event.kind) && v.completedAt == Some(d.now)
    ensures Shows(ds + [d], v)
  {
    var all := ds + [d];
    RunningOneMore(ds, d);
    assert all[..|ds|] == ds && all[|ds|] == d;
    assert forall j | 0 <= j < |ds| :: all[j] == ds[j];
  }

  lemma ShowsOn(ds: seq<Delivery>, d: Delivery, s: State, v: State)
    requires !Running(ds) && Shows(ds, s) && v.completedAt == s.completedAt
    requires IsTerminal(d.event) ==> v.status == Named(d.event.kind)
    requires !IsTerminal(d.event) && s.status != "pending" ==> v.status == s.status
    ensures Shows(ds + [d], v)
  {
    var all := ds + [d];
    RunningOneMore(ds, d);
    var i :| 0 <= i < |ds| && IsTerminal(ds[i].event) && Running(ds[..i]) && s.completedAt == Some(ds[i].now);
    assert all[i] == ds[i] && all[..i] == ds[..i];
    forall j | 0 <= j < |all| && IsTerminal(all[j].event) && Running(all[j + 1..]) && Named(all[j].event.kind) != "pending"
      ensures v.status == Named(all[j].event.kind)
    {
      if j < |ds| {
        assert all[j + 1..] == ds[j + 1..] + [d] && all[j] == ds[j];
        RunningOneMore(ds[j + 1..], d);
      }
    }
  }

  /**
   Folding the events of a log, each once: pending before the first, running until a terminal one comes,
   completed when the first of those came, and then with the status the last of them names.
   */
  lemma {:induction false} FoldShows(log: seq<Event>, ds: seq<Delivery>, m: nat)
    requires Ordered(log) && m <= |log| && Events(ds) == log[..m]
    ensures Shows(ds, FoldAll(PENDING, ds))
  {
    if m > 0 {
      var front, d := ds[..m - 1], Last(ds);
      assert Events(front) == log[..m - 1] by {
        assert forall i | 0 <= i < m - 1 :: Events(ds)[i] == log[..m][i];
      }
      assert d.event == Events(ds)[m - 1] == log[m - 1] && front + [d] == ds;
      FoldShows(log, front, m - 1);
      FoldOfPrefix(log, front, m - 1);
      NewIsApplied(log, m - 1, FoldAll(PENDING, front), d);
      ShowsOneMore(front, d, FoldAll(PENDING, front), Sequence(log[m - 1].id.value));
    }
  }

  lemma ShowsOneMore(front: seq<Delivery>, d: Delivery, s: State, sequence: int)
    requires Shows(front, s)
    ensures Shows(front + [d], Folded(s.(lastSeq := sequence), d.event, d.now))
  {
    var v := Folded(s.(lastSeq := sequence), d.event, d.now);
    RunningOneMore(front, d);
    if !Running(front) {
      ShowsOn(front, d, s, v);
    } else if IsTerminal(d.event) {
      ShowsFirstTerminal(front, d, s, v);
    }
  }

  /** The next event of a log is never taken for a replay. */
  lemma NewIsApplied(log: seq<Event>, m: nat, s: State, d: Delivery)
    requires Ordered(log) && m < |log| && d.event == log[m] && s.lastSeq == if m == 0 then -1 else Sequence(log[m - 1].id.value)
    ensures Applied(s, d.event, d.now) == Folded(s.(lastSeq := Sequence(log[m].id.value)), d.event, d.now)
  {
  }

  // ---------------------------------------------------------------- the watch

  /** One connection: how far back the server replays, how many events come before it ends, and when each is read. */
  datatype Connection = Connection(back: nat, count: nat, times: seq<real>)

  /** Where the server resumes: behind the event with the given id, or at the start. */
  function ResumeAt(log: seq<Event>, last: Option<EventId>): (i: nat)
    ensures i <= |log|
    ensures last.Some? && i > 0 ==> log[i - 1].id == last
    ensures last.None? ==> i == 0
    decreases |log|
  {
    if last.None? || |log| == 0 then 0
    else if Last(log).id == last then |log|
    else ResumeAt(log[..|log| - 1], last)
  }

  lemma {:induction false} ResumesAfter(log: seq<Event>, m: nat)
    requires Ordered(log) && 0 < m <= |log|
    ensures ResumeAt(log, log[m - 1].id) == m
    decreases |log|
  {
    if m < |log| {
      assert log[m - 1].id.value.text != log[|log| - 1].id.value.text;
      ResumesAfter(log[..|log| - 1], m);
    }
  }

  lemma CoversOneMore(log: seq<Event>, ds: seq<Delivery>, m: nat, i: nat, now: real)
    requires Covers(log, ds, m) && i <= m && i < |log|
    ensures Covers(log, ds + [Delivery(log[i], now)], if i == m then m + 1 else m)
  {
    assert (ds + [Delivery(log[i], now)])[..|ds|] == ds;
  }

  /** What a reconnect sends as `Last-Event-ID`: the last id passed on. */
  function LastId(ds: seq<Delivery>): Option<EventId> {
    if |ds| == 0 then None
    else if Last(ds).event.id.Some? && Last(ds).event.id.value.text != "" then Last(ds).event.id
    else LastId(ds[..|ds| - 1])
  }

  /** Where a connection begins to read: the server resumes behind the last id, and may replay further back. */
  function BeginsAt(log: seq<Event>, c: Connection, before: seq<Delivery>): (i: nat)
    ensures i <= |log|
  {
    var resume := ResumeAt(log, LastId(before));
    if c.back < resume then resume - c.back else 0
  }

  /** A connection passes on exactly the log from there, each event when it is read, up to its drop or the end. */
  ghost predicate Reads(log: seq<Event>, c: Connection, before: seq<Delivery>, part: seq<Delivery>)
    requires |c.times| >= c.count
  {
    var from := BeginsAt(log, c, before);
    && |part| == Min(c.count, |log| - from)
    && forall i | 0 <= i < |part| :: part[i] == Delivery(log[from + i], c.times[i])
  }

  function Flatten(parts: seq<seq<Delivery>>): seq<Delivery> {
    if |parts| == 0 then [] else Flatten(parts[..|parts| - 1]) + Last(parts)
  }

  ghost predicate HasTerminal(part: seq<Delivery>) {
    exists i | 0 <= i < |part| :: IsTerminal(part[i].event)
  }

  ghost predicate Timed(connections: seq<Connection>) {
    forall k | 0 <= k < |connections| :: |connections[k].times| >= connections[k].count
  }

  /** The connections used, one after the other, each reading on from what came before it. */
  ghost predicate InTurn(log: seq<Event>, connections: seq<Connection>, parts: seq<seq<Delivery>>)
    requires Timed(connections)
  {
    |parts| <= |connections| && forall k | 0 <= k < |parts| :: Reads(log, connections[k], Flatten(parts[..k]), parts[k])
  }

  /** How far into the log a used connection reached. */
  function Reach(log: seq<Event>, connections: seq<Connection>, parts: seq<seq<Delivery>>, k: nat): nat
    requires k < |parts| <= |connections|
  {
    BeginsAt(log, connections[k], Flatten(parts[..k])) + |parts[k]|
  }

  /** `covered` is as far as the furthest connection reached. */
  ghost predicate Furthest(log: seq<Event>, connections: seq<Connection>, parts: seq<seq<Delivery>>, covered: nat)
    requires |parts| <= |connections|
  {
    && (forall k | 0 <= k < |parts| :: Reach(log, connections, parts, k) <= covered)
    && (covered > 0 ==> exists k | 0 <= k < |parts| :: Reach(log, connections, parts, k) == covered)
  }

  lemma ReachStays(log: seq<Event>, connections: seq<Connection>, parts: seq<seq<Delivery>>, part: seq<Delivery>, k: nat)
    requires k < |parts| < |connections|
    ensures Reach(log, connections, parts + [part], k) == Reach(log, connections, parts, k)
  {
    assert (parts + [part])[..k] == parts[..k];
  }

  lemma TurnOneMore(log: seq<Event>, connections: seq<Connection>, parts: seq<seq<Delivery>>, part: seq<Delivery>)
    requires Timed(connections) && InTurn(log, connections, parts) && |parts| < |connections|
    requires Reads(log, connections[|parts|], Flatten(parts), part)
    ensures InTurn(log, connections, parts + [part]) && Flatten(parts + [part]) == Flatten(parts) + part
  {
    var all := parts + [part];
    assert all[..|parts|] == parts;
    forall k | 0 <= k < |all|
      ensures Reads(log, connections[k], Flatten(all[..k]), all[k])
    {
      if k < |parts| {
        assert all[..k] == parts[..k];
        assert Reads(log, connections[k], Flatten(parts[..k]), parts[k]);
      }
    }
  }

  lemma FurthestOneMore(log: seq<Event>, connections: seq<Connection>, parts: seq<seq<Delivery>>, part: seq<Delivery>, covered: nat)
    requires |parts| < |connections| && Furthest(log, connections, parts, covered)
    ensures Furthest(log, connections, parts + [part], Max(covered, BeginsAt(log, connections[|parts|], Flatten(parts)) + |part|))
  {
    var all, reach := parts + [part], BeginsAt(log, connections[|parts|], Flatten(parts)) + |part|;
    assert all[..|parts|] == parts;
    assert Reach(log, connections, all, |parts|) == reach;
    forall k | 0 <= k < |parts|
      ensures Reach(log, connections, all, k) == Reach(log, connections, parts, k)
    {
      ReachStays(log, connections, parts, part, k);
    }
    if covered >= reach && covered > 0 {
      var k :| 0 <= k < |parts| && Reach(log, connections, parts, k) == covered;
      assert Reach(log, connections, all, k) == covered;
    }
  }

  /**
   Yields what the connections deliver until one of them has brought a terminal event. `parts` is what
   each connection used passed on: exactly the log from where the server resumes to the drop. No part
   of the log is passed over: everything up to the furthest point reached was yielded, and folds as if
   it had come once.
   */
  method WatchLifecycle(log: seq<Event>, connections: seq<Connection>)
    returns (yielded: seq<Delivery>, ghost parts: seq<seq<Delivery>>, ghost covered: nat)
    requires Ordered(log) && Timed(connections)
    ensures yielded == Flatten(parts) && InTurn(log, connections, parts)
    ensures |parts| == |connections| || (|parts| > 0 && HasTerminal(Last(parts)))
    ensures forall k | 0 <= k < |parts| - 1 :: !HasTerminal(parts[k])
    ensures Furthest(log, connections, parts, covered)
    ensures Covers(log, yielded, covered)
    ensures FoldAll(PENDING, yielded) == FoldAll(PENDING, Firsts(yielded)) && Events(Firsts(yielded)) == log[..covered]
  {
    yielded, parts, covered := [], [], 0;
    var lastEventId: Option<EventId> := None;
    var sawTerminal := false;
    var k := 0;
    while !sawTerminal && k < |connections|
      invariant Watching(log, connections, k, yielded, lastEventId, sawTerminal, parts, covered)
      decreases |connections| - k
    {
      yielded, lastEventId, sawTerminal, parts, covered := WatchNext(log, connections, k, yielded, lastEventId, parts, covered);
      k := k + 1;
    }
    ReplaysChangeNothing(log, yielded, covered);
  }

  /** One more connection. */
  method WatchNext(log: seq<Event>, connections: seq<Connection>, k: nat, before: seq<Delivery>, lastBefore: Option<EventId>,
                   ghost partsBefore: seq<seq<Delivery>>, ghost m: nat)
    returns (yielded: seq<Delivery>, last: Option<EventId>, sawTerminal: bool, ghost parts: seq<seq<Delivery>>, ghost covered: nat)
    requires Ordered(log) && Timed(connections) && k < |connections|
    requires Watching(log, connections, k, before, lastBefore, false, partsBefore, m)
    ensures Watching(log, connections, k + 1, yielded, last, sawTerminal, parts, covered)
  {
    var resume := ResumeAt(log, lastBefore);
    ResumeInside(log, before, m);
    var at := if connections[k].back < resume then resume - connections[k].back else 0;
    ghost var part;
    yielded, last, sawTerminal, part, covered := ReadConnection(log, at, connections[k], before, lastBefore, m);
    parts := partsBefore + [part];
    WatchingOn(log, connections, k, before, lastBefore, partsBefore, m, part, yielded, last, sawTerminal, covered);
  }

  lemma WatchingOn(log: seq<Event>, connections: seq<Connection>, k: nat, before: seq<Delivery>, lastBefore: Option<EventId>,
                   partsBefore: seq<seq<Delivery>>, m: nat, part: seq<Delivery>, yielded: seq<Delivery>, last: Option<EventId>, sawTerminal: bool,
                   covered: nat)
    requires Timed(connections) && k < |connections| && Watching(log, connections, k, before, lastBefore, false, partsBefore, m)
    requires yielded == before + part && Reads(log, connections[k], before, part) && Covers(log, yielded, covered)
    requires last == LastId(yielded) && (sawTerminal <==> HasTerminal(part)) && covered == Max(m, BeginsAt(log, connections[k], before) + |part|)
    ensures Watching(log, connections, k + 1, yielded, last, sawTerminal, partsBefore + [part], covered)
  {
    TurnOneMore(log, connections, partsBefore, part);
    FurthestOneMore(log, connections, partsBefore, part, m);
    TerminalsOneMore(partsBefore, part);
  }

  lemma TerminalsOneMore(parts: seq<seq<Delivery>>, part: seq<Delivery>)
    requires forall j | 0 <= j < |parts| - 1 :: !HasTerminal(parts[j])
    requires |parts| > 0 ==> !HasTerminal(Last(parts))
    ensures forall j | 0 <= j < |parts| :: !HasTerminal((parts + [part])[j])
    ensures Last(parts + [part]) == part
  {
  }

  /** Between two connections. */
  ghost predicate Watching(log: seq<Event>, connections: seq<Connection>, k: nat, yielded: seq<Delivery>, last: Option<EventId>, sawTerminal: bool,
                           parts: seq<seq<Delivery>>, covered: nat)
    requires Timed(connections)
  {
    && k == |parts| <= |connections| && Covers(log, yielded, covered)
    && yielded == Flatten(parts) && InTurn(log, connections, parts) && Furthest(log, connections, parts, covered)
    && last == LastId(yielded)
    && (sawTerminal <==> k > 0 && HasTerminal(Last(parts)))
    && (forall j | 0 <= j < k - 1 :: !HasTerminal(parts[j]))
  }

  /** A connection begins right behind the event passed on last, less what the server replays. */
  lemma BeginsBehindLast(log: seq<Event>, c: Connection, before: seq<Delivery>, covered: nat)
    requires Ordered(log) && Covers(log, before, covered)
    ensures |before| == 0 ==> BeginsAt(log, c, before) == 0
    ensures |before| > 0 ==> exists i | 0 <= i < covered :: log[i] == Last(before).event && BeginsAt(log, c, before) == Max(0, i + 1 - c.back)
  {
    if |before| > 0 {
      assert covered > 0 && log[covered - 1] == Last(before).event ==> exists j | 0 <= j < covered :: log[j] == Last(before).event;
      var i :| 0 <= i < covered && log[i] == Last(before).event;
      ResumesAfter(log, i + 1);
    }
  }

  /** If any connection used read to the end of the log, all of it was yielded. */
  lemma ReadToTheEnd(log: seq<Event>, connections: seq<Connection>, parts: seq<seq<Delivery>>, covered: nat, k: nat)
    requires Timed(connections) && InTurn(log, connections, parts) && Furthest(log, connections, parts, covered) && covered <= |log|
    requires k < |parts| && connections[k].count >= |log| - BeginsAt(log, connections[k], Flatten(parts[..k]))
    ensures covered == |log|
  {
    assert Reads(log, connections[k], Flatten(parts[..k]), parts[k]);
    assert Reach(log, connections, parts, k) == |log|;
  }

  /** What was passed on last lies inside what is covered. */
  lemma {:induction false} LastIdCovered(log: seq<Event>, ds: seq<Delivery>, m: nat)
    requires Ordered(log) && Covers(log, ds, m)
    ensures LastId(ds).None? ==> m == 0
    ensures LastId(ds).Some? ==> exists i | 0 <= i < m :: log[i].id == LastId(ds)
    decreases |ds|
  {
    if |ds| > 0 {
      var e := Last(ds).event;
      assert m > 0 && log[m - 1] == e ==> exists j | 0 <= j < m :: log[j] == e;
      var j :| 0 <= j < m && log[j] == e;
      assert log[j].id == LastId(ds);
    }
  }

  lemma ResumeInside(log: seq<Event>, ds: seq<Delivery>, covered: nat)
    requires Ordered(log) && Covers(log, ds, covered)
    ensures ResumeAt(log, LastId(ds)) <= covered
  {
    LastIdCovered(log, ds, covered);
    if LastId(ds).Some? {
      var i :| 0 <= i < covered && log[i].id == LastId(ds);
      ResumesAfter(log, i + 1);
    }
  }

  /** One connection, up to its drop; a replay may set the reconnect id back, never past what was covered. */
  method ReadConnection(log: seq<Event>, from: nat, c: Connection, before: seq<Delivery>, lastBefore: Option<EventId>, ghost m: nat)
    returns (yielded: seq<Delivery>, last: Option<EventId>, sawTerminal: bool, ghost part: seq<Delivery>, ghost covered: nat)
    requires Ordered(log) && Covers(log, before, m) && from == BeginsAt(log, c, before) <= m && |c.times| >= c.count
    requires lastBefore == LastId(before)
    ensures yielded == before + part && Reads(log, c, before, part)
    ensures last == LastId(yielded) && (sawTerminal <==> HasTerminal(part))
    ensures Covers(log, yielded, covered) && covered == Max(m, from + |part|)
  {
    ReadNone(log, from, c, before, m);
    ghost var n;
    yielded, last, sawTerminal, part, covered, n := ReadEvents(log, from, c, before, lastBefore, m);
    ReadAll(log, from, c, before, n, yielded, part, m, covered);
  }

  method ReadEvents(log: seq<Event>, from: nat, c: Connection, before: seq<Delivery>, lastBefore: Option<EventId>, ghost m: nat)
    returns (yielded: seq<Delivery>, last: Option<EventId>, sawTerminal: bool, ghost part: seq<Delivery>, ghost covered: nat, ghost read: nat)
    requires Ordered(log) && Reading(log, from, c, before, 0, before, [], m, m) && Marks(before, [], lastBefore, false)
    ensures Reading(log, from, c, before, read, yielded, part, m, covered) && Marks(yielded, part, last, sawTerminal)
    ensures read == c.count || from + read >= |log|
  {
    yielded, last, sawTerminal, part, covered := before, lastBefore, false, [], m;
    var n := 0;
    while n < c.count && from + n < |log|
      invariant n <= c.count && Reading(log, from, c, before, n, yielded, part, m, covered)
      invariant Marks(yielded, part, last, sawTerminal)
      decreases c.count - n
    {
      ReadOne(log, from, c, before, n, yielded, part, m, covered);
      MarkOne(yielded, part, last, sawTerminal, Delivery(log[from + n], c.times[n]));
      if log[from + n].id.Some? && log[from + n].id.value.text != "" {
        last := log[from + n].id;
      }
      sawTerminal := sawTerminal || IsTerminal(log[from + n]);
      covered := if from + n == covered then covered + 1 else covered;
      yielded := yielded + [Delivery(log[from + n], c.times[n])];
      part := part + [Delivery(log[from + n], c.times[n])];
      n := n + 1;
    }
    read := n;
  }

  /** Inside one connection, after `n` of its events. */
  ghost predicate Reading(log: seq<Event>, from: nat, c: Connection, before: seq<Delivery>, n: nat, yielded: seq<Delivery>, part: seq<Delivery>,
                          m: nat, covered: nat)
  {
    && n <= c.count <= |c.times| && from + n <= |log| && |part| == n && yielded == before + part
    && (forall i | 0 <= i < n :: part[i] == Delivery(log[from + i], c.times[i]))
    && Covers(log, yielded, covered) && covered == Max(m, from + n)
  }

  /** The id to reconnect with, and whether a terminal event was read. */
  ghost predicate Marks(yielded: seq<Delivery>, part: seq<Delivery>, last: Option<EventId>, sawTerminal: bool) {
    last == LastId(yielded) && (sawTerminal <==> HasTerminal(part))
  }

  lemma ReadNone(log: seq<Event>, from: nat, c: Connection, before: seq<Delivery>, m: nat)
    requires Covers(log, before, m) && from <= m <= |log| && |c.times| >= c.count
    ensures Reading(log, from, c, before, 0, before, [], m, m)
  {
    assert before + [] == before;
  }

  lemma ReadOne(log: seq<Event>, from: nat, c: Connection, before: seq<Delivery>, n: nat, yielded: seq<Delivery>, part: seq<Delivery>,
                m: nat, covered: nat)
    requires Reading(log, from, c, before, n, yielded, part, m, covered) && n < c.count && from + n < |log|
    ensures
      var d := Delivery(log[from + n], c.times[n]);
      Reading(log, from, c, before, n + 1, yielded + [d], part + [d], m, if from + n == covered then covered + 1 else covered)
  {
    var d := Delivery(log[from + n], c.times[n]);
    CoversOneMore(log, yielded, covered, from + n, c.times[n]);
    assert yielded + [d] == before + (part + [d]);
  }

  lemma MarkOne(yielded: seq<Delivery>, part: seq<Delivery>, last: Option<EventId>, sawTerminal: bool, d: Delivery)
    requires Marks(yielded, part, last, sawTerminal)
    ensures Marks(yielded + [d], part + [d], if d.event.id.Some? && d.event.id.value.text != "" then d.event.id else last, sawTerminal || IsTerminal(d.event))
  {
    assert (yielded + [d])[..|yielded|] == yielded;
    TerminalOneMore(part, d);
  }

  lemma ReadAll(log: seq<Event>, from: nat, c: Connection, before: seq<Delivery>, n: nat, yielded: seq<Delivery>, part: seq<Delivery>,
                m: nat, covered: nat)
    requires Reading(log, from, c, before, n, yielded, part, m, covered) && from == BeginsAt(log, c, before)
    requires n == c.count || from + n >= |log|
    ensures Reads(log, c, before, part) && |part| == n
  {
  }

  lemma TerminalOneMore(part: seq<Delivery>, d: Delivery)
    ensures HasTerminal(part + [d]) <==> HasTerminal(part) || IsTerminal(d.event)
  {
    var more := part + [d];
    if i :| 0 <= i < |part| && IsTerminal(part[i].event) {
      assert more[i] == part[i];
    }
    if IsTerminal(d.event) {
      assert more[|part|] == d;
    }
  }
}

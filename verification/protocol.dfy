/**
 The routing and claims protocol as a state machine: any number of routed Signals, submitted
 answers, pending sweeps and idle sweeps, interleaved at every access to a shared store
 (src/cord_runtime/router.py, src/cord_runtime/approval_inbox.py). While a call is blocked in
 `execute` or `resume`, the others go on.
 */
module Protocol {
  import opened Basics
  import C = Concurrency
  import L = DeploymentLifecycle
  import P = PendingCompletions
  import D = SignalDedupe
  import R = ResponseDedupe
  import K = RunContinuity

  type Pair = C.Pair
  type Key = P.Key
  type Connections = map<string, L.Connection>

  const MAX_CASCADE_DEPTH: nat := 5

  /** A logical Run that reached its end: what its `run.finished` Signal carries. */
  datatype Finish = Finish(key: Key, runId: string, pair: Pair, depth: nat)

  function FinishedId(runId: string): string {
    "run.finished:" + runId
  }

  datatype ExecuteOutcome = Succeeded | StillRunning | Interrupted | Ended
  datatype ResumeOutcome = ResumeSucceeded | ResumeInterrupted | DeadlineReached | TransportError | ResumeEnded

  /** One `route_signal` call, fixed when its rule has matched. */
  datatype Routing = Routing(
    signalId: string, source: Option<Key>, causedBy: Option<string>,
    alias: string, pair: Pair, depth: nat, now: real, staleAfter: real)

  datatype RoutePc =
    | Matched
    | HoldsPair
    | DeploymentReady
    | Admitted(claim: nat)
    | Executing(claim: nat)
    | Executed(key: Key, run: string, outcome: ExecuteOutcome)
    | Releasing(tookActive: bool, retain: bool, finish: Option<Finish>)
    | LettingGo(retain: bool, finish: Option<Finish>)

  /** One `submit_response` call. */
  datatype Responding = Responding(slot: R.Slot, revision: Option<string>, now: real)

  /** What the answering call read of its Thread. */
  datatype Seen = Seen(pending: set<string>, revision: Option<string>)

  datatype SubmitPc =
    | Opening
    | Opened
    | Claimed
    | Read(seen: Seen)
    | Authorized(seen: Seen, granted: bool, pair: Pair)
    | Prepared(seen: Seen, granted: bool, pair: Pair, depth: nat)
    | Resuming(pair: Pair, depth: nat)
    | Returned(pair: Pair, depth: nat, run: string, logicalRun: string, outcome: ResumeOutcome)
    | Settling(pair: Pair, depth: nat, run: string, logicalRun: string, outcome: ResumeOutcome)
    | Closing

  datatype Call = Route(r: Routing, pc: RoutePc) | Submit(q: Responding, at: SubmitPc)

  /** A Run handed to the backend, and the dedupe claim that let it through. */
  datatype Submission = Submission(routing: Routing, claim: nat)

  /** A resume handed to the backend, and what its authorization rested on. */
  datatype Resumption = Resumption(slot: R.Slot, revision: Option<string>, seen: Seen, granted: bool)

  datatype World = World(
    claims: C.Claims, records: L.Records, signals: D.Claims, answers: R.Records, entries: P.Entries, threads: K.Records,
    calls: map<nat, Call>,
    sweep: Option<P.Entries>,          // what a pending sweep has still to look at
    // history
    seen: set<Key>,
    claimCalls: seq<D.Call>,
    submissions: seq<Submission>,
    resumes: seq<Resumption>,
    replies: seq<(R.Slot, bool)>,
    finished: seq<Finish>)

  datatype Observation = Unreachable | Active | Paused | Completed | OtherwiseEnded

  datatype Step =
    | RouteSignal(id: nat, signalId: string, alias: string, pair: Pair, now: real, staleAfter: real)
    | Cascade(id: nat, i: nat, alias: string, pair: Pair, now: real, staleAfter: real)
    | ClaimPair(id: nat)
    | Start(id: nat, probe: L.Probe)
    | ClaimSignal(id: nat)
    | Execute(id: nat)
    | ExecuteFails(id: nat)
    | ExecuteReturns(id: nat, thread: string, run: string, outcome: ExecuteOutcome)
    | Track(id: nat)
    | ReleaseActive(id: nat)
    | ReleasePair(id: nat)
    | Respond(id: nat, slot: R.Slot, revision: Option<string>, now: real)
    | ClaimAnswer(id: nat)
    | ReadState(id: nat, state: Option<Seen>)
    | Authorize(id: nat, granted: bool, assistant: string, subject: string)
    | ReadPending(id: nat)
    | Resume(id: nat)
    | ResumeFails(id: nat)
    | ResumeReturns(id: nat, run: string, reply: ResumeOutcome)
    | RecordResumed(id: nat)
    | Settle(id: nat)
    | Vanish(id: nat)
    | BeginSweep
    | SweepEntry(key: Key, seenStatus: Observation, now: real)
    | EndSweep
    | StopIdle(now: real)

  predicate RouteAt(w: World, id: nat) {
    id in w.calls && w.calls[id].Route?
  }

  predicate SubmitAt(w: World, id: nat) {
    id in w.calls && w.calls[id].Submit?
  }

  function KeyOf(slot: R.Slot): Key {
    P.Key(slot.deployment, slot.thread)
  }

  /** What a sweep has read and not acted on. */
  function Snapshot(w: World): P.Entries {
    if w.sweep.Some? then w.sweep.value else map[]
  }

  /** A registered alias; the connection store takes no blank one. */
  predicate Registered(conns: Connections, alias: string) {
    alias in conns && !Blank(alias)
  }

  predicate Enabled(conns: Connections, w: World, step: Step) {
    match step
    case RouteSignal(id, signalId, alias, pair, _, _) => id !in w.calls && Registered(conns, alias) && pair.Named() && !Blank(signalId)
    case Cascade(id, i, alias, pair, _, _) =>
      id !in w.calls && Registered(conns, alias) && pair.Named() && i < |w.finished| && w.finished[i].depth < MAX_CASCADE_DEPTH
    case ClaimPair(id) => RouteAt(w, id) && w.calls[id].pc.Matched?
    case Start(id, _) => (RouteAt(w, id) && w.calls[id].pc.HoldsPair?) || (SubmitAt(w, id) && w.calls[id].at.Opening?)
    case ClaimSignal(id) => RouteAt(w, id) && w.calls[id].pc.DeploymentReady?
    case Execute(id) => RouteAt(w, id) && w.calls[id].pc.Admitted?
    case ExecuteFails(id) => RouteAt(w, id) && w.calls[id].pc.Executing?
    case ExecuteReturns(id, thread, run, _) =>
      // the backend opens a fresh Thread for every execution
      RouteAt(w, id) && w.calls[id].pc.Executing? && !Blank(thread) && !Blank(run) && P.Key(w.calls[id].r.alias, thread) !in w.seen
    case Track(id) => RouteAt(w, id) && w.calls[id].pc.Executed?
    case ReleaseActive(id) => (RouteAt(w, id) && w.calls[id].pc.Releasing?) || (SubmitAt(w, id) && w.calls[id].at.Closing?)
    case ReleasePair(id) => RouteAt(w, id) && w.calls[id].pc.LettingGo?
    case Respond(id, slot, _, _) => id !in w.calls && Registered(conns, slot.deployment) && slot.Named()
    case ClaimAnswer(id) => SubmitAt(w, id) && w.calls[id].at.Opened?
    case ReadState(id, _) => SubmitAt(w, id) && w.calls[id].at.Claimed?
    case Authorize(id, _, _, _) => SubmitAt(w, id) && w.calls[id].at.Read?
    case ReadPending(id) => SubmitAt(w, id) && w.calls[id].at.Authorized?
    case Resume(id) => SubmitAt(w, id) && w.calls[id].at.Prepared?
    case ResumeFails(id) => SubmitAt(w, id) && w.calls[id].at.Resuming?
    case ResumeReturns(id, run, _) => SubmitAt(w, id) && w.calls[id].at.Resuming? && !Blank(run)
    case RecordResumed(id) => SubmitAt(w, id) && w.calls[id].at.Returned?
    case Settle(id) => SubmitAt(w, id) && w.calls[id].at.Settling?
    case Vanish(id) => id in w.calls
    case BeginSweep => w.sweep.None?
    case SweepEntry(key, seenStatus, _) => w.sweep.Some? && key in w.sweep.value && (seenStatus.Unreachable? || key.deployment in conns)
    case EndSweep => w.sweep.Some?
    case StopIdle(_) => true
  }

  function Conn(conns: Connections, alias: string): L.Connection {
    if alias in conns then conns[alias] else L.Connection(None, None)
  }

  /** `depth` and subject an answering call falls back on; the sweep and the inbox share the entry. */
  function DepthOf(w: World, key: Key): nat {
    if key in w.entries then w.entries[key].cascadeDepth else 0
  }

  function SubjectOf(w: World, key: Key, subject: string): string {
    if subject == "" && key in w.entries then w.entries[key].subject else subject
  }

  /** The authorization order of every boundary: stale, then revision, then the grant. */
  predicate Accepts(seen: Seen, interrupt: string, revision: Option<string>, granted: bool) {
    interrupt in seen.pending && revision == seen.revision && granted
  }

  /** The call a step belongs to. */
  function Actor(step: Step): Option<nat> {
    match step
    case BeginSweep => None
    case SweepEntry(_, _, _) => None
    case EndSweep => None
    case StopIdle(_) => None
    case _ => Some(step.id)
  }

  function Alias(c: Call): string {
    if c.Route? then c.r.alias else c.q.slot.deployment
  }

  function Time(c: Call): real {
    if c.Route? then c.r.now else c.q.now
  }

  // ---------------------------------------------------------------- control

  /** `route_signal`, from one store access to the next; `None` when the call is over. */
  function RouteMoves(conns: Connections, w: World, step: Step): Option<RoutePc>
    requires Enabled(conns, w, step) && Actor(step).Some? && RouteAt(w, step.id)
  {
    var r, pc := w.calls[step.id].r, w.calls[step.id].pc;
    match step
    case ClaimPair(_) => if C.Live(w.claims, r.pair, r.now, r.staleAfter) then None else Some(HoldsPair)
    case Start(_, probe) =>
      // a start failure goes straight to the release of claims
      if StartResult(conns, w, step).FailedToStart? then Some(Releasing(false, false, None)) else Some(DeploymentReady)
    case ClaimSignal(_) =>
      if D.Remembered(w.signals, r.signalId, r.now, D.DEFAULT_RETENTION) then Some(Releasing(true, false, None))
      else Some(Admitted(|w.claimCalls|))
    case Execute(_) => Some(Executing(pc.claim))
    case ExecuteFails(_) => Some(Releasing(true, false, None))
    case ExecuteReturns(_, thread, run, outcome) => Some(Executed(P.Key(r.alias, thread), run, outcome))
    case Track(_) =>
      Some(Releasing(true, pc.outcome.StillRunning?, if pc.outcome.Succeeded? then Some(Finish(pc.key, pc.run, r.pair, r.depth)) else None))
    case ReleaseActive(_) => Some(LettingGo(pc.retain, pc.finish))
    case _ => None
  }

  /** `submit_response`, likewise. */
  function SubmitMoves(conns: Connections, w: World, step: Step): Option<SubmitPc>
    requires Enabled(conns, w, step) && Actor(step).Some? && SubmitAt(w, step.id)
  {
    var q, at := w.calls[step.id].q, w.calls[step.id].at;
    match step
    case Start(_, _) => if StartResult(conns, w, step).FailedToStart? then None else Some(Opened)
    case ClaimAnswer(_) => if q.slot in w.answers then Some(Closing) else Some(Claimed)
    case ReadState(_, state) => if state.None? then Some(Closing) else Some(Read(state.value))
    case Authorize(_, granted, assistant, subject) =>
      if Accepts(at.seen, q.slot.interrupt, q.revision, granted) then Some(Authorized(at.seen, granted, C.Pair(assistant, subject))) else Some(Closing)
    case ReadPending(_) =>
      Some(Prepared(at.seen, at.granted, at.pair.(subject := SubjectOf(w, KeyOf(q.slot), at.pair.subject)), DepthOf(w, KeyOf(q.slot))))
    case Resume(_) => if Blank(at.pair.assistant) then Some(Closing) else Some(Resuming(at.pair, at.depth))
    case ResumeReturns(_, run, outcome) =>
      Some(Returned(at.pair, at.depth, run, K.Recorded(w.threads, KeyOf(q.slot), run)[KeyOf(q.slot)].runId, outcome))
    case RecordResumed(_) => Some(Settling(at.pair, at.depth, at.run, at.logicalRun, at.outcome))
    // a deadline leaves the activity claim with the entry, an ambiguous end leaves it with nobody
    case Settle(_) => if at.outcome.DeadlineReached? || at.outcome.TransportError? then None else Some(Closing)
    case _ => None
  }

  function StartResult(conns: Connections, w: World, step: Step): L.Started
    requires step.Start? && step.id in w.calls
  {
    var c := w.calls[step.id];
    L.EnsureStarted(w.records, Alias(c), Conn(conns, Alias(c)), Time(c), step.probe).1
  }

  function NewCall(w: World, step: Step): Call
    requires step.RouteSignal? || step.Respond? || (step.Cascade? && step.i < |w.finished|)
  {
    match step
    case RouteSignal(_, signalId, alias, pair, now, staleAfter) =>
      Route(Routing(signalId, None, None, alias, pair, 0, now, staleAfter), Matched)
    case Cascade(_, i, alias, pair, now, staleAfter) =>
      var f := w.finished[i];
      Route(Routing(FinishedId(f.runId), Some(f.key), Some(f.runId), alias, pair, f.depth + 1, now, staleAfter), Matched)
    case Respond(_, slot, revision, now) => Submit(Responding(slot, revision, now), Opening)
  }

  predicate Opens(step: Step) {
    step.RouteSignal? || step.Cascade? || step.Respond?
  }

  /** The actor's call after the step. */
  function Moved(conns: Connections, w: World, step: Step): Option<Call>
    requires Enabled(conns, w, step) && Actor(step).Some?
  {
    if Opens(step) then Some(NewCall(w, step))
    else if RouteAt(w, step.id) then
      var pc := RouteMoves(conns, w, step);
      if pc.None? then None else Some(Route(w.calls[step.id].r, pc.value))
    else
      var at := SubmitMoves(conns, w, step);
      if at.None? then None else Some(Submit(w.calls[step.id].q, at.value))
  }

  function NextCalls(conns: Connections, w: World, step: Step): map<nat, Call>
    requires Enabled(conns, w, step)
  {
    if Actor(step).None? then w.calls
    else
      var moved := Moved(conns, w, step);
      if moved.None? then w.calls - {step.id} else w.calls[step.id := moved.value]
  }

  // ---------------------------------------------------------------- stores

  function NextClaims(conns: Connections, w: World, step: Step): C.Claims
    requires Enabled(conns, w, step)
  {
    match step
    case ClaimPair(id) =>
      var r := w.calls[id].r;
      C.Claimed(w.claims, r.pair, r.now, r.staleAfter)
    case ReleasePair(id) => if w.calls[id].pc.retain then w.claims else w.claims - {w.calls[id].r.pair}
    case SweepEntry(key, seenStatus, now) => SweptClaims(w.claims, w.sweep.value[key], seenStatus, now)
    case _ => w.claims
  }

  function PairOf(entry: P.Entry): Pair {
    C.Pair(entry.assistant, entry.subject)
  }

  function NextRecords(conns: Connections, w: World, step: Step): L.Records
    requires Enabled(conns, w, step)
  {
    match step
    case Start(id, probe) =>
      var c := w.calls[id];
      L.EnsureStarted(w.records, Alias(c), Conn(conns, Alias(c)), Time(c), probe).0
    case ReleaseActive(id) =>
      var c := w.calls[id];
      if c.Route? && c.pc.retain then w.records else L.ReleaseActive(w.records, Alias(c), Conn(conns, Alias(c)), Time(c))
    case SweepEntry(key, seenStatus, now) =>
      if w.sweep.value[key].deploymentHeld && Settles(seenStatus)
      then L.ReleaseActive(w.records, key.deployment, Conn(conns, key.deployment), now)
      else w.records
    case StopIdle(now) => L.StopIdle(w.records, conns, now)
    case _ => w.records
  }

  /** Whether a sweep acts on what it saw. */
  predicate Settles(seenStatus: Observation) {
    seenStatus.Paused? || seenStatus.Completed? || seenStatus.OtherwiseEnded?
  }

  function NextAnswers(conns: Connections, w: World, step: Step): R.Records
    requires Enabled(conns, w, step)
  {
    match step
    case ClaimAnswer(id) => R.Claimed(w.answers, w.calls[id].q.slot, w.calls[id].q.now)
    case ReadState(id, state) =>
      if state.None? then R.WithOutcome(w.answers, w.calls[id].q.slot, R.Unknown, w.calls[id].q.now) else w.answers
    case Authorize(id, granted, _, _) =>
      var q := w.calls[id].q;
      if Accepts(w.calls[id].at.seen, q.slot.interrupt, q.revision, granted) then w.answers
      else R.WithOutcome(w.answers, q.slot, R.Rejected, q.now)
    case ResumeFails(id) => R.WithOutcome(w.answers, w.calls[id].q.slot, R.Unknown, w.calls[id].q.now)
    case RecordResumed(id) => R.WithOutcome(w.answers, w.calls[id].q.slot, R.Resumed, w.calls[id].q.now)
    case _ => w.answers
  }

  /** A Run that is still waiting is tracked; its claims stay with the entry unless it was interrupted. */
  function Tracked(r: Routing, pc: RoutePc): P.Entry
    requires pc.Executed?
  {
    P.Entry(pc.run, r.pair.assistant, r.pair.subject, r.depth, pc.outcome.StillRunning?, pc.outcome.StillRunning?, r.now)
  }

  function Resettled(q: Responding, at: SubmitPc): P.Entry
    requires at.Settling?
  {
    P.Entry(at.run, at.pair.assistant, at.pair.subject, at.depth, false, at.outcome.DeadlineReached?, q.now)
  }

  function NextEntries(conns: Connections, w: World, step: Step): P.Entries
    requires Enabled(conns, w, step)
  {
    match step
    case Track(id) =>
      var c := w.calls[id];
      if c.pc.outcome.StillRunning? || c.pc.outcome.Interrupted? then w.entries[c.pc.key := Tracked(c.r, c.pc)] else w.entries
    case Settle(id) => SettledEntries(w.entries, w.calls[id].q, w.calls[id].at)
    case SweepEntry(key, seenStatus, now) => SweptEntries(w.entries, key, seenStatus, now)
    case _ => w.entries
  }

  function SettledEntries(entries: P.Entries, q: Responding, at: SubmitPc): P.Entries
    requires at.Settling?
  {
    var key := KeyOf(q.slot);
    if at.outcome.ResumeSucceeded? then entries - {key}
    else if (at.outcome.ResumeInterrupted? || at.outcome.DeadlineReached?) && P.Recordable(key, Resettled(q, at)) then
      entries[key := Resettled(q, at)]
    else entries
  }

  /** The store's own entry, which may have changed since the sweep read its copy. */
  function SweptEntries(entries: P.Entries, key: Key, seenStatus: Observation, now: real): P.Entries {
    if seenStatus.Paused? then P.Downgraded(entries, key, now)
    else if Settles(seenStatus) then entries - {key}
    else entries
  }

  function SweptClaims(claims: C.Claims, entry: P.Entry, seenStatus: Observation, now: real): C.Claims {
    if !entry.concurrencyHeld || seenStatus.Unreachable? then claims
    else if seenStatus.Active? then C.Renewed(claims, PairOf(entry), now)
    else claims - {PairOf(entry)}
  }

  function NextSweep(conns: Connections, w: World, step: Step): Option<P.Entries>
    requires Enabled(conns, w, step)
  {
    match step
    case BeginSweep => Some(w.entries)
    case SweepEntry(key, _, _) => Some(w.sweep.value - {key})
    case EndSweep => None
    case _ => w.sweep
  }

  function NextThreads(conns: Connections, w: World, step: Step): K.Records
    requires Enabled(conns, w, step)
  {
    match step
    case ExecuteReturns(id, thread, run, _) => K.Recorded(w.threads, P.Key(w.calls[id].r.alias, thread), run)
    case ResumeReturns(id, run, _) => K.Recorded(w.threads, KeyOf(w.calls[id].q.slot), run)
    case _ => w.threads
  }

  // ---------------------------------------------------------------- history

  function NextFinished(conns: Connections, w: World, step: Step): seq<Finish>
    requires Enabled(conns, w, step)
  {
    match step
    case ReleasePair(id) => if w.calls[id].pc.finish.Some? then w.finished + [w.calls[id].pc.finish.value] else w.finished
    case Settle(id) =>
      var q, at := w.calls[id].q, w.calls[id].at;
      if at.outcome.ResumeSucceeded? && at.pair.Named() then w.finished + [Finish(KeyOf(q.slot), at.logicalRun, at.pair, at.depth)] else w.finished
    case SweepEntry(key, seenStatus, _) =>
      var entry := w.sweep.value[key];
      if seenStatus.Completed? then
        w.finished + [Finish(key, if key in w.threads then w.threads[key].runId else entry.invocation, PairOf(entry), entry.cascadeDepth)]
      else w.finished
    case _ => w.finished
  }

  function NextSeen(conns: Connections, w: World, step: Step): set<Key>
    requires Enabled(conns, w, step)
  {
    match step
    case ExecuteReturns(id, thread, _, _) => w.seen + {P.Key(w.calls[id].r.alias, thread)}
    case Respond(_, slot, _, _) => w.seen + {KeyOf(slot)}
    case _ => w.seen
  }

  function NextSubmissions(conns: Connections, w: World, step: Step): seq<Submission>
    requires Enabled(conns, w, step)
  {
    if step.Execute? then w.submissions + [Submission(w.calls[step.id].r, w.calls[step.id].pc.claim)] else w.submissions
  }

  function NextResumes(conns: Connections, w: World, step: Step): seq<Resumption>
    requires Enabled(conns, w, step)
  {
    if step.Resume? && !Blank(w.calls[step.id].at.pair.assistant)
    then w.resumes + [Resumption(w.calls[step.id].q.slot, w.calls[step.id].q.revision, w.calls[step.id].at.seen, w.calls[step.id].at.granted)]
    else w.resumes
  }

  function NextReplies(conns: Connections, w: World, step: Step): seq<(R.Slot, bool)>
    requires Enabled(conns, w, step)
  {
    if step.ResumeFails? || step.ResumeReturns? then w.replies + [(w.calls[step.id].q.slot, step.ResumeReturns?)] else w.replies
  }

  function NextSignals(conns: Connections, w: World, step: Step): (D.Claims, seq<D.Call>)
    requires Enabled(conns, w, step)
  {
    if step.ClaimSignal? then
      var r := w.calls[step.id].r;
      (D.Claimed(w.signals, r.signalId, r.now, D.DEFAULT_RETENTION), w.claimCalls + [D.Call(r.signalId, r.now)])
    else (w.signals, w.claimCalls)
  }

  function Do(conns: Connections, w: World, step: Step): World
    requires Enabled(conns, w, step)
  {
    World(NextClaims(conns, w, step), NextRecords(conns, w, step), NextSignals(conns, w, step).0, NextAnswers(conns, w, step),
          NextEntries(conns, w, step), NextThreads(conns, w, step), NextCalls(conns, w, step), NextSweep(conns, w, step),
          NextSeen(conns, w, step), NextSignals(conns, w, step).1, NextSubmissions(conns, w, step), NextResumes(conns, w, step),
          NextReplies(conns, w, step), NextFinished(conns, w, step))
  }

  // ---------------------------------------------------------------- runs

  const START: World := World(map[], map[], map[], map[], map[], map[], map[], None, {}, [], [], [], [], [])

  /** `trace` is a run of the machine from the empty stores. */
  ghost predicate Run(conns: Connections, trace: seq<World>, steps: seq<Step>) {
    && |trace| == |steps| + 1 && trace[0] == START
    && (forall i | 0 <= i < |steps| :: Enabled(conns, trace[i], steps[i]) && trace[i + 1] == Do(conns, trace[i], steps[i]))
  }
}

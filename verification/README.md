# Cordboard in Dafny

Cordboard submits Runs of graphs to managed Deployments, records them as Run, Step and Attempt
spans, and shows what happened. This project models the parts of it where many small rules have to
add up, and proves that they do.

**Span archive.** `execution.dfy` is the instrumentation as an interpreter of programs that open
scopes, raise, pause and resume; `execution_outcomes.dfy` tells from a program alone what each of its
spans says, and `recorder.dfy` is the same as the context managers run it. `callback_handler.dfy`
produces the same shape from LangGraph events, and `callback_history.dfy` tells from the events alone
what is open and what is exported. `archive_read.dfy`,
`archive_query.dfy` and `escalations.dfy` read an archive, decide whether it is a legal forest and
rank escalations. `tree_builder.dfy`, `viewer.dfy`, `timeline.dfy` and `catalog.dfy` rebuild and
show it. `projection.dfy` and `langfuse_query.dfy` compare it with a second reader's copy.
`execution_roundtrip.dfy` closes the loop: record, deliver in any order, check, rebuild.
`langfuse_examples.dfy` and `timeline_examples.dfy` are concrete archives where a promise fails.

**Routing and claims.** The six stores are classes with their fields as maps, each proved against a
specification function. `protocol.dfy` is a state machine over those functions: any number of routed
Signals, submitted answers, pending sweeps and idle sweeps, interleaved at every store access, with
other calls going on while one is blocked in `execute` or `resume`, and processes that may vanish.
`protocol_activity.dfy`, `protocol_exclusion.dfy`, `protocol_answers.dfy`, `protocol_cascade.dfy` and
`protocol_depth.dfy` prove its safety over every run; `depth_example.dfy` is a run where the depth of a
cascade is lost. `board.dfy`, `router.dfy` and `approval_inbox.dfy` are the calls
themselves over the stores; each access is a step of the machine, so its theorems hold of them.
`routes.dfy` says what one undisturbed call does to the stores; the calls are proved to do exactly
that, and `route_facts.dfy`, `sweep_facts.dfy` and `approval_facts.dfy` prove what follows.
`route_responses.dfy`, `sweep_claims.dfy`, `sweep_routes.dfy` and `approval_results.dfy` say it again
without those specifications, from the stores and the answers alone: every response in exactly its
case, and what each call leaves. `held_runs.dfy` follows one Run over any sequence of calls.

**Topology and layout.** `topology.dfy`, `expansions.dfy`, `layout_depths.dfy`, `layout.dfy`,
`drawing.dfy` and `overlay.dfy`.

**Live streams.** `sse.dfy`, `live.dfy` and `convergence.dfy`.

## Reading the model

- A record the program aliases (a Step in two lists) is named by its span id; its fields are those of
  the span.
- Times are natural numbers where the program keeps nanoseconds and reals where it keeps seconds.
  Every `now`, clock reading, drawn id, probe, backend result and rule match is an input. A call that
  routes takes its answers from a list, one for each Signal it routes; the end of the list is no match.
  Every `execute` opens a Thread of its own.
- A store access under a file lock, or a read and write without one, is one step. The clock of the
  Signal claims is assumed not to go back where a statement says so. One sweep runs at a time, and
  each of its entries is one step with its cascade a later one.
- The code, not its documentation, is followed where they differ. A Step's parent may be another
  Step, at any depth, in the code. The instrumentation and the callback handler test subject types,
  Node names and (the handler) identities only for emptiness, so blank ones are recorded and then
  refused: acceptance is proved to fail exactly then. A route whose own launch failed gives back an
  activity claim it never took: covering is proved to fail exactly when that claim is in use. An answer
  that finds no tracked entry for its Thread goes on at cascade depth 0, and so does the cascade below
  it: a Thread is proved to keep its depth exactly when no answer finds its entry missing. A sweep
  renews the claim of a Run it sees running only if the claim is still there at that Run's turn; one
  already stale may be taken and given back by a cascade before.
- The stream reader is simpler than sections 9.2.4 to 9.2.6 of the WHATWG HTML Living Standard: it
  strips all white space around a value, forgets the id after each frame, and yields a frame that has
  an event but no data.

## Model

| member | source | states |
|---|---|---|
| ArchiveRead.Identifier | src/cord_runtime/archive_query.py:61-64 | an accepted identifier has exactly the wanted length, is lower-case hexadecimal and not zero |
| ArchiveRead.IdentifierCanonical | src/cord_runtime/archive_query.py:61-64 | normalizing is idempotent, and two spellings of one number normalize alike |
| ArchiveRead.AttributesOf | src/cord_runtime/archive_query.py:44-58 | succeeds exactly when keys are distinct and every value is typed, and keeps every attribute |
| ArchiveRead.ReadLine | src/cord_runtime/archive_query.py:98-118 | one envelope's spans are indexed exactly when they are well formed and contradict nothing read before |
| ArchiveRead.ReadSpans | src/cord_runtime/archive_query.py:88-124 | succeeds exactly when every file is a non-empty run of envelopes and all records are consistent (a conflicting duplicate always rejects); the index holds each recorded span once, in order of first reading, with the file and line it was first read at |
| ArchiveRead.RetransmissionInsensitive | src/cord_runtime/archive_query.py:88-124 | the same records in any order, partition into non-empty files or repetition give the same spans, the same verdict and the same rows |
| ArchiveQuery.Parent | src/cord_runtime/archive_query.py:149-160 | succeeds exactly on a present parent of the expected role, trace and identity |
| ArchiveQuery.RunRoot | src/cord_runtime/archive_query.py:163-182 | terminates on every input, cyclic ones included; succeeds exactly when a finite path through Steps reaches a Run, returns that Run, and otherwise names why the climb strays |
| ArchiveQuery.ChainUnique | src/cord_runtime/archive_query.py:163-182 | a Step has one ancestor path |
| ArchiveQuery.ChainAcyclic | src/cord_runtime/archive_query.py:163-182 | no span is its own ancestor on a path that reaches a Run |
| ArchiveQuery.CheckSpan | src/cord_runtime/archive_query.py:190-235 | accepts a span exactly when its local check holds, and counts exactly the Attempts escalated in the half-open window |
| ArchiveQuery.CheckStep | src/cord_runtime/archive_query.py:205-219 | accepts a Step exactly under a Run, or under a Step whose Run has the current version |
| ArchiveQuery.SharedAlongPath | src/cord_runtime/archive_query.py:158-159 | although the climb checks neither, every span on an accepted path shares trace and identity |
| ArchiveQuery.LocalIsLegal | src/cord_runtime/archive_query.py:185-237 | checking links one at a time accepts exactly the legal forests: cycle-free paths to a Run, shared identity, nesting only below a current-version Run |
| Escalations.RankingUnique | src/cord_runtime/archive_query.py:236-237 | a set of rows has one ranking by count, then graph, then node |
| Escalations.CountsAreExact | src/cord_runtime/archive_query.py:231-233 | full-row counts sum to the escalated Attempts in the window |
| Escalations.SortedRows | src/cord_runtime/archive_query.py:236-237 | the rows are exactly the counter's entries, strictly ranked |
| Escalations.QuerySpans | src/cord_runtime/archive_query.py:185-237 | accepts exactly a positive `top` and a legal forest, in any iteration order; rows are the prefix of the one full ranking, which counts the escalated Attempts of each Graph and Node; a rejection names the first offending span |
| Escalations.RankingCountsEscalations | src/cord_runtime/archive_query.py:231-233 | a row (graph, node, count) is in the full ranking exactly when count is positive and is the number of Attempts whose outcome is escalated, whose own Graph and Node attributes are these texts and whose end lies in the half-open window |
| Escalations.QueryIsDeterministic | src/cord_runtime/archive_query.py:185-237 | two accepted answers over the same spans are equal |
| Projection.AlikeLegal | src/cord_runtime/langfuse_query.py:26-30 | spans that agree on what the reader looks at are accepted or refused together |
| Projection.QueryFactorsThroughProjection | src/cord_runtime/langfuse_query.py:26-30 | two span maps with the same keys, string names and equal typed projections are both refused or give identical rows |
| LangfuseQuery.ReadTrace | src/cord_runtime/langfuse_query.py:91-130 | a result holds every row of the pages read, of that trace alone, without contradiction, and as many distinct spans as announced |
| LangfuseQuery.MergeCopies | src/cord_runtime/langfuse_query.py:153-163 | the merged index, completeness and id equality mean what they say, trace by trace |
| LangfuseQuery.ComparePass | src/cord_runtime/langfuse_query.py:152-179 | waits exactly while an expected span is missing from its trace; a match exactly when the copy is faithful, legal and has the same complete rows |
| LangfuseQuery.CopyAgreesWhen | src/cord_runtime/langfuse_query.py:26-30 | a copy agrees with a span exactly when identity, parent, times, name and every `cord.` attribute are equal, as Python compares them, and its trace is filed under the span's subject; no other attribute matters |
| LangfuseQuery.FaithfulIsAcceptedWhen | src/cord_runtime/langfuse_query.py:168-179 | a copy equal to a legal archive in Python's equality is accepted exactly when every returned name is text and every returned Attempt number an integer, and then has the same complete rows |
| LangfuseQuery.Compare | src/cord_runtime/langfuse_query.py:133-191 | answers exactly for a legal archive and a positive `top`; the first pass that is complete or fails decides, a match exactly when the copy is faithful with textual names and integer Attempt numbers; else the last status |
| LangfuseQuery.MovedSpanIsSeen | src/cord_runtime/langfuse_query.py:160-162 | a span moved between traces cannot be hidden by the id overwrite |
| LangfuseExamples.TruthIsNoAttemptNumber | src/cord_runtime/langfuse_query.py:168-177 | a legal archive and a copy of it with `true` for attempt 1: equal projections, refused by the recount |
| LangfuseExamples.NullIsNoName | src/cord_runtime/langfuse_query.py:26-30 | a legal archive and a copy with a null name for an unnamed span: equal projections, refused by the recount |
| TreeBuilder.Builder.EnsureRun | src/cord_runtime/viewer.py:102-115 | a Run gets one record, and what was filed before stays filed |
| TreeBuilder.Builder.EnsureStep | src/cord_runtime/viewer.py:117-144 | a Step is filed once under its parent, its missing ancestors first; terminates by its distance from the Run |
| TreeBuilder.Builder.Meet | src/cord_runtime/viewer.py:146-164 | after each span met in arbitrary order, exactly the spans met and their ancestors are recorded |
| TreeBuilder.Builder.SortSteps | src/cord_runtime/viewer.py:166-173 | the nodes below a parent, each with its recorded subtree, in start order |
| TreeBuilder.BuildExecutionTree | src/cord_runtime/viewer.py:47-218 | succeeds exactly on a legal forest, and the result lists every Run, Step and Attempt once under its own parent in start order, whatever order spans come in |
| Viewer.SortedUnique | src/cord_runtime/viewer.py:166-170 | with distinct start times there is one sorted order |
| Viewer.ForestUnique | src/cord_runtime/viewer.py:146-218 | the rebuilt forest does not depend on span order when start times differ |
| Viewer.RunTreeConserves | src/cord_runtime/viewer.py:197-206 | flattening a Run yields each Step whose path ends there exactly once, and no other |
| Timeline.FlagRepeated | src/cord_runtime/viewer.py:175-183 | of the Steps resuming one span, all but the first in start order are flagged |
| Timeline.AllButOneFlagged | src/cord_runtime/viewer.py:178-183 | of n Steps resuming one span exactly n-1 are flagged, and the unflagged one starts no later |
| Timeline.AttemptsConserved | src/cord_runtime/viewer.py:197-206 | flattening a Run yields each Attempt whose Step's path ends there exactly once, and no other |
| Timeline.EndBoundsEverything | src/cord_runtime/viewer.py:206-209 | a Run's end bounds every Step, and every Attempt of its Steps, at any depth |
| Timeline.SumOfDisjointWaits | src/cord_runtime/viewer.py:187-211 | the waits add up to the instants they cover when they are pairwise disjoint |
| Timeline.WaitPlusExecution | src/cord_runtime/viewer.py:205-212 | wait plus execution is the Run's extent when waits are disjoint, originals are in the same Run and no Step starts before the Run |
| Timeline.OvercountedWaits | src/cord_runtime/viewer.py:210-212 | in general they add up exactly when the waits do not exceed the extent |
| TimelineExamples.WaitsExceedTheRun | src/cord_runtime/viewer.py:187-212 | an accepted archive where they do: two Steps resume one pause, so waiting counts 13 of a Run lasting 10 |
| ExecutionFacts.ExecFacts | src/cord_runtime/execution.py:34-134 | every span of a scope lies inside its time and under it; its Steps and Attempts are recorded in the order executed |
| ExecutionFacts.ExecTrees | src/cord_runtime/execution.py:34-134 | each executed Step's recorded subtree is the one executed |
| ExecutionFacts.ExecIsLocal | src/cord_runtime/execution.py:34-134 | each emitted span passes its own archive check as soon as its identity and Node are not blank |
| ExecutionNames.ExecOpens | src/cord_runtime/execution.py:34-134 | executing opens the Steps, and leaves by the exception, that the items foretell, whatever the clock and the pauses |
| ExecutionOutcomes.ExecSays | src/cord_runtime/execution.py:34-134 | each emitted span has the parent, Node, link, outcome and, on an Attempt, number and tier its program foretells; a scope left by an exception is a pause exactly when its pause set, its own or the one inherited from the Step above, has the exception |
| ExecutionOutcomes.EmittedSays | src/cord_runtime/execution.py:178-231 | the same of a whole program with its resumptions, its one Run span included |
| ExecutionOutcomes.ChildPausesLikeItsParent | src/cord_runtime/execution.py:97-98 | a child Step with no pause set of its own that raises an exception of its parent's is recorded awaiting approval |
| RoundTrip.EmittedIsLegal | src/cord_runtime/execution.py:34-231 | what any programs of run, step, child, attempt and resume emit, failing and pausing ones included, is accepted exactly when the subject types are not blank and no Step the program opens, as its items tell before any run, has a blank Node |
| RoundTrip.ForestIsExecuted | src/cord_runtime/execution.py:34-231 | the only forest recorded is the executed one |
| RoundTrip.RebuildExecuted | src/cord_runtime/viewer.py:47-218 | delivering the emitted spans in any order and rebuilding gives back exactly the executed call trees |
| Recorder.Tracer.PerformStep | src/cord_runtime/execution.py:34-65 | opens, settles on the exception path and ends a Step span as the executed program says |
| Recorder.Tracer.PerformAttempt | src/cord_runtime/execution.py:101-134 | likewise for an Attempt, whose pause keeps the declared outcome |
| Recorder.Tracer.Record | src/cord_runtime/execution.py:178-231 | a Run with its resumptions exports exactly the spans of the program |
| CallbackHandler.Configure | cord-langgraph-callbacks/src/cord_langgraph_callbacks/handler.py:125-161 | the constructor accepts a resumed Run exactly when no other identity is given, and a new one exactly with non-empty identities |
| CallbackHandler.CordCallbackHandler.OnChainStart | cord-langgraph-callbacks/src/cord_langgraph_callbacks/handler.py:211-243 | opens a Step under the enclosing open namespace or the Run, in both indexes, and consumes the pending link |
| CallbackHandler.CordCallbackHandler.OnChainEnd | cord-langgraph-callbacks/src/cord_langgraph_callbacks/handler.py:245-251 | ends the Step of that run id and drops its keys |
| CallbackHandler.CordCallbackHandler.OnChainError | cord-langgraph-callbacks/src/cord_langgraph_callbacks/handler.py:253-271 | as a pause or a failure |
| CallbackHandler.CordCallbackHandler.CloseHandler | cord-langgraph-callbacks/src/cord_langgraph_callbacks/handler.py:273-293 | ends every open Step and the Run span, once |
| CallbackHistory.HandlerAgrees | cord-langgraph-callbacks/src/cord_langgraph_callbacks/handler.py:211-293 | after any events, the handler's two indexes, its pending link and whether it is closed are those the events tell: the Step open under each run id, and in each namespace, by its own start event |
| CallbackHistory.EventExports | cord-langgraph-callbacks/src/cord_langgraph_callbacks/handler.py:245-271 | an end or error event exports the Step open under its run id, and nothing if there is none: under the Step open in the enclosing namespace or the Run, with its Node, the first one with the link, and its outcome |
| CallbackHistory.PausesAreListed | cord-langgraph-callbacks/src/cord_langgraph_callbacks/handler.py:253-268 | exactly the open Steps ended by a graph interrupt are listed as awaiting approval, in order, under their span and namespace |
| CallbackHistory.CloseExports | cord-langgraph-callbacks/src/cord_langgraph_callbacks/handler.py:273-293 | the first close exports every Step still open, as a failure, and the Run's own span; a later close nothing |
| CallbackFacts.EveryStepEndedOnce | cord-langgraph-callbacks/src/cord_langgraph_callbacks/handler.py:211-293 | over every event sequence: no span is ended twice, and once closed every started Step was ended exactly when no start reused an open run id |
| CallbackFacts.IndexesAgree | cord-langgraph-callbacks/src/cord_langgraph_callbacks/handler.py:240-243 | the two indexes agree throughout exactly when every opening Step brings unused keys or replaces one Step under both |
| CallbackArchive.OneRunRoot | cord-langgraph-callbacks/src/cord_langgraph_callbacks/handler.py:178-205 | at most one Run root, the handler's own, recorded exactly when a Step opened; none on resume |
| CallbackArchive.HandlerSpansAreLegal | cord-langgraph-callbacks/src/cord_langgraph_callbacks/handler.py:178-293 | beside what was recorded before, a closed handler's spans are accepted exactly when identities and Nodes are not blank and nesting stays below a current-version Run |
| Concurrency.ConcurrencyStore.TryClaim | src/cord_runtime/concurrency.py:101-114 | succeeds exactly when no live claim holds the pair; a refusal changes nothing |
| Concurrency.ConcurrencyStore.Release | src/cord_runtime/concurrency.py:117-124 | drops the pair and nothing else |
| Concurrency.ConcurrencyStore.Renew | src/cord_runtime/concurrency.py:127-141 | refreshes a held claim, never makes one |
| Concurrency.RivalsFailWhileRenewed | src/cord_runtime/concurrency.py:101-141 | while a pair is held, the first rival to get through is the first to come its own `stale_after` past the last renewal; closer renewals make every rival fail |
| DeploymentLifecycle.LifecycleStore.Start | src/cord_runtime/deployment_lifecycle.py:133-192 | external, claimed again, launched, or failed, with the record each leaves |
| DeploymentLifecycle.LifecycleStore.Release | src/cord_runtime/deployment_lifecycle.py:195-207 | drops one claim of a running managed Deployment |
| DeploymentLifecycle.LifecycleStore.StopAllIdle | src/cord_runtime/deployment_lifecycle.py:210-236 | stops exactly the idle Deployments, each once |
| DeploymentLifecycle.StartThenRelease | src/cord_runtime/deployment_lifecycle.py:133-207 | a claim taken and dropped leaves the count, and every other record, as it was |
| DeploymentLifecycle.StoppedWhenIdle | src/cord_runtime/deployment_lifecycle.py:133-236 | however Runs come and go on a Deployment that keeps answering, an idle sweep stops it exactly when none is under way and the last came or went the idle time ago or longer |
| PendingCompletions.PendingStore.RecordPending | src/cord_runtime/pending_completions.py:80-107 | starts or overwrites one entry, refusing blank names |
| PendingCompletions.PendingStore.UpdatePending | src/cord_runtime/pending_completions.py:110-131 | gives each named field of an existing entry its new value and leaves its other fields, and every other entry, as they were |
| PendingCompletions.PendingStore.ResolvePending | src/cord_runtime/pending_completions.py:139-149 | removes and returns the entry, once |
| ResponseDedupe.ResponseDedupeStore.Claim | src/cord_runtime/response_dedupe.py:98-113 | succeeds exactly the first time |
| ResponseDedupe.ResponseDedupeStore.RecordOutcome | src/cord_runtime/response_dedupe.py:116-138 | the first outcome stays |
| ResponseDedupe.ResponseDedupeStore.GetClaim | src/cord_runtime/response_dedupe.py:141-145 | the record of one interrupt, if claimed |
| ResponseDedupe.SettledForever | src/cord_runtime/response_dedupe.py:116-138 | nothing later changes a claim or an outcome |
| ResponseDedupe.OneClaimPerSlot | src/cord_runtime/response_dedupe.py:98-113 | however calls interleave, a second claim finds the first |
| SignalDedupe.SignalDedupeStore.Claim | src/cord_runtime/signal_dedupe.py:83-98 | succeeds unless a claim inside the window is remembered; expired claims are dropped |
| SignalDedupe.SignalDedupeStore.IsDuplicate | src/cord_runtime/signal_dedupe.py:74-80 | tells whether a live claim is remembered, without claiming |
| SignalDedupe.FirstSucceeds | src/cord_runtime/signal_dedupe.py:83-98 | the first delivery of a Signal is always let through |
| SignalDedupe.NextSuccess | src/cord_runtime/signal_dedupe.py:70-98 | a later delivery is let through exactly when some claim call, its own included, came a whole window after the last success |
| SignalDedupe.SuccessesAreAWindowApart | src/cord_runtime/signal_dedupe.py:70-98 | with a clock that never goes back, two successes of one Signal are a window apart |
| RunContinuity.ContinuityStore.RecordSubmission | src/cord_runtime/run_continuity.py:69-90 | appends a submission once and returns the Thread's logical Run |
| RunContinuity.ContinuityStore.ThreadForRun | src/cord_runtime/run_continuity.py:106-115 | finds a Thread of that logical Run exactly when there is one |
| RunContinuity.FirstSubmissionNamesTheRun | src/cord_runtime/run_continuity.py:69-90 | the first submission names the logical Run; all are kept, once, in order |
| RunContinuity.LogicalRunNeverChanges | src/cord_runtime/run_continuity.py:69-103 | no later submission renames a Thread's logical Run |
| ProtocolActivity.CoverStep | src/cord_runtime/router.py:197-239 | a step keeps every running Deployment's count at or above its holders exactly when it does not give back, for a call whose own launch failed, a claim in use |
| ProtocolActivity.ActivityIsCovered | src/cord_runtime/router.py:197-239 | the same over every interleaving of routes, sweeps, answers and idle sweeps without a crash relaunch |
| ProtocolActivity.IdleSweepIsSafe | src/cord_runtime/deployment_lifecycle.py:221-236 | then an idle sweep stops no Deployment that a live call or a held entry uses |
| ProtocolActivity.FailedLaunchStealsAClaim | src/cord_runtime/router.py:200-237 | the condition is needed: a concrete run of two racing Signals where the failed launch's clean-up lets an idle sweep stop a Deployment in use |
| ProtocolExclusion.ExclusiveStep | src/cord_runtime/router.py:193-239 | a step keeps each pair with one holder, stored, exactly when it is not a claim over a live holder |
| ProtocolExclusion.PairsAreExclusive | src/cord_runtime/router.py:193-239 | the same over every run, across the hand-over from calls to tracked entries |
| ProtocolAnswers.OneResumePerInterrupt | src/cord_runtime/approval_inbox.py:220-275 | for any interleaved submitters, a resume is handed over at most once per interrupt, while it was pending at the submitted revision and the boundary accepted |
| ProtocolAnswers.OutcomeIsTrueAndFinal | src/cord_runtime/approval_inbox.py:226-286 | a recorded outcome never changes and is the backend's answer |
| ProtocolCascade.OneFinishIdPerThread | src/cord_runtime/router.py:326-334 | immediate success, sweep and resumed success report one Thread under one Signal id |
| ProtocolCascade.OneChildPerWindow | src/cord_runtime/router.py:206-248 | with a clock that never goes back, two children submitted for one logical Run are a retention window apart |
| ProtocolCascade.SubmissionsAreOrdered | src/cord_runtime/router.py:206-211 | no two submissions spend one Signal claim |
| ProtocolCascade.CascadesAreBounded | src/cord_runtime/router.py:169-192 | over every history no submission, entry or finish is deeper than the bound, and each child is one level below an earlier finish |
| ProtocolDepth.ThreadKeepsDepth | src/cord_runtime/approval_inbox.py:267-268 | over every run, every call, entry and finish of a Thread has the depth of the submission that opened it, across pauses, answers and sweeps, exactly when no answer that reads the Thread's entry finds it missing |
| DepthExample.AnswerBeforeTheEntry | src/cord_runtime/approval_inbox.py:261-268 | the condition is needed: a concrete run where a child opened at depth 1 pauses and is answered before it is tracked, and goes on at depth 0 |
| ProtocolNames.NamedAlways | src/cord_runtime/router.py:182-193 | no store ever holds a blank name |
| Board.Stores.ClaimPairStep | src/cord_runtime/router.py:193-195 | a claim on the stores is that step of the protocol |
| Board.Stores.TrackStep | src/cord_runtime/router.py:222-234 | a waiting Run is tracked with its claims, an interrupted one without |
| Board.Stores.SweepEntryStep | src/cord_runtime/router.py:289-324 | one tracked entry renewed, downgraded or resolved, and its claims given back |
| Board.Stores.StopIdleStep | src/cord_runtime/deployment_lifecycle.py:210-236 | an idle sweep on the stores is that step, and names what it stopped |
| Routes.AllRoutedWith | src/cord_runtime/router.py:137-249 | routing a Signal and its cascade depends on the stores alone: other calls and a sweep beside it make no difference and are left as they are |
| RouteFacts.ClaimingDoes | src/cord_runtime/router.py:197-234 | one level submits nothing, or exactly the Run its Rule names, recorded under its Thread, tracked while it waits and reported only if it succeeded |
| RouteFacts.ClaimingClaims | src/cord_runtime/router.py:193-239 | a live pair stops the level with nothing changed; otherwise the pair stays claimed exactly for a Run still running |
| RouteFacts.ActivityReturned | src/cord_runtime/router.py:200-237 | a level that got its Deployment and leaves no Run behind leaves the activity count, and every other record, as the start found them |
| Router.RouteOnce | src/cord_runtime/router.py:193-239 | one level as the program runs it, each store access a protocol step, leaves the stores, the history, the response and the finish of the specification, and no call |
| Router.RouteSignal | src/cord_runtime/router.py:137-249 | terminates, and leaves exactly the stores, history, response and unused answers of the recursive specification of a Signal and its cascade; no call stays behind |
| RouteResponses.ResponseTells | src/cord_runtime/router.py:169-234 | each response exactly in its case, told from the Signal, the stores and the answer alone: depth bound reached, no target, target blank or unregistered, pair claimed and not stale, Deployment not startable, Signal remembered, `execute` failed, or routed with its outcome |
| RouteResponses.RefusedLeaves | src/cord_runtime/router.py:169-239 | a refused Signal submits nothing: until its pair is found free nothing moves; after that the pair and the activity claim are given back, and a duplicate only drops expired Signals |
| RouteResponses.OwnSubmission | src/cord_runtime/router.py:206-249 | any other makes one submission first, with its own id, cause, depth, target and time; the Thread is recorded, and tracked while it waits; only a Run still running keeps pair and activity; after a success the rest is the routing of its `run.finished` |
| RouteFacts.SubmittedWhen | src/cord_runtime/router.py:169-188 | a Run was submitted exactly when the response is routed or failed in execution; only a finish at the bound is stopped by depth; only a success carries a cascade |
| RouteFacts.CascadeTrail | src/cord_runtime/router.py:241-248 | the submissions of one call form a row: the first for the Signal, each next one for the `run.finished` of the one before it |
| RouteFacts.EachIsCaused | src/cord_runtime/router.py:169-192 | so each nested submission is caused by the logical Run of the finish before it, one level deeper, and one Signal submits at most 1 + 5 Runs, 5 - d for a finish at depth d |
| RouteFacts.FinishesNameRuns | src/cord_runtime/router.py:218-219 | every finish a cascade reports names the logical Run recorded for its Thread |
| RouteFacts.CascadeKeeps | src/cord_runtime/router.py:137-249 | a cascade leaves the record and the entry of every Thread known before alone |
| RouteFacts.NoPairLeaks | src/cord_runtime/router.py:193-239 | whatever pair a cascade leaves claimed was claimed before, or is held by a tracked Run it started |
| RouteFacts.LiveClaimsStay | src/cord_runtime/router.py:193-195 | a live claim of another Run is left as it was |
| Router.SweepPending | src/cord_runtime/router.py:258-336 | looks at every tracked entry exactly once, in some order, and leaves exactly the stores, history, unused answers and list of observations that acting on each entry and routing each completed one in that order gives; no call and no snapshot stays |
| SweepFacts.TrackedAreSeen | src/cord_runtime/router.py:216-234 | in every run of the protocol every tracked and recorded Thread has been seen, which the statements about cascades and sweeps ask for |
| SweepFacts.EntriesAfterSweep | src/cord_runtime/router.py:303-324 | in whatever order: paused Runs stay tracked and hold nothing, ended ones are resolved, the others are as they were, whatever the cascades do |
| SweepFacts.FinishesOfSweep | src/cord_runtime/router.py:326-334 | of the Threads tracked at its start a sweep reports exactly the completed ones, each once, under their logical Run and in order |
| SweepFacts.SubmissionsOfSweep | src/cord_runtime/router.py:326-334 | a sweep submits nothing but answers to finishes, at most 5 - d for each completed entry at depth d |
| SweepFacts.ClaimsAfterSweep | src/cord_runtime/router.py:308-323 | the pair of every held entry found paused or ended is free afterwards, and no pair newly claimed, but for a Run started since that holds it |
| SweepClaims.ClaimTimesAfterSweep | src/cord_runtime/router.py:303-323 | in whatever order: a pair no cascade can touch is free if an entry found paused or ended held it, claimed at the time of the sweep if one seen running holds it, and else keeps its claim and its time |
| SweepClaims.HeldIsRenewed | src/cord_runtime/router.py:303-306 | a held entry seen running, its pair claimed and not stale and freed by no other entry, has it claimed at the time of the sweep, whatever the cascades do |
| SweepClaims.StaleIsLost | src/cord_runtime/router.py:303-306 | a claim already stale is not protected: for any entry found completed below the bound before it, a cascade that takes the pair and fails leaves the running entry without its claim |
| SweepClaims.SweepBalances | src/cord_runtime/router.py:308-324 | what a Deployment counts beyond its tracked holders is the same after a sweep and its cascades |
| SweepClaims.CountAfterSweep | src/cord_runtime/router.py:308-324 | so its count goes down by one for each held entry found paused or ended and up by the Runs the cascades leave running |
| SweepRoutes.EachFinishIsRouted | src/cord_runtime/router.py:326-334 | a Run found completed gets a child exactly when its finish, told from the records at the start, passes every hurdle at its turn; the child carries that finish, one level deeper, and stays |
| SweepRoutes.SweepAnswers | src/cord_runtime/router.py:288-336 | the sweep answers one line for each Run of a registered Deployment seen paused or ended, in order, with a response exactly for the completed ones |
| SweepRoutes.ResponseIsListed | src/cord_runtime/router.py:333-335 | and that response is the one the finish got at its turn |
| HeldRuns.HeldWhileSeen | src/cord_runtime/router.py:193-306 | over any sequence of Signals, answers, sweeps and idle sweeps, while each comes less than its own `stale_after` after the last sweep that saw the Run running, the Run keeps its pair, claimed at that sweep, and nothing is submitted for it |
| HeldRuns.RivalsAreSkipped | src/cord_runtime/router.py:193-195 | so every Signal mapped to the pair in that time is skipped and leaves everything as it was |
| Rules.Decide | src/cord_runtime/router.py:91-111 | the first matching Rule decides |
| Rules.FirstDecides | src/cord_runtime/router.py:176-188 | no decision exactly when no Rule matches, else the first one's, even when its mapping fails |
| Rules.MappedWhen | src/cord_runtime/router.py:105-111 | a target is mapped exactly when every declared path resolves to what it holds and the Subject to text that is not blank |
| Rules.OnlyDeclaredPathsMatter | src/cord_runtime/router.py:82-111 | payloads that agree on every declared path are routed and mapped alike |
| ApprovalInbox.PendingIsUnfinished | src/cord_runtime/approval_inbox.py:92-100 | an interrupt is pending exactly when an unfinished task carries it |
| ApprovalInbox.PendingIds | src/cord_runtime/approval_inbox.py:92-100 | the ids read are exactly the pending ones |
| ApprovalInbox.Decide | src/cord_runtime/entity_auth.py:73-82 | goes on exactly when the interrupt is pending, the revision matches and the boundary grants; else rejected on record |
| ApprovalInbox.SubmitResponse | src/cord_runtime/approval_inbox.py:182-328 | one submission, each store access a protocol step, leaves exactly the stores, history, result and unused answers of the specification, and no call |
| ApprovalFacts.ResultTells | src/cord_runtime/approval_inbox.py:220-325 | each result is given exactly in its case: failed start, duplicate, unreadable Thread, refused, no Assistant, ambiguous transport, resumed |
| ApprovalFacts.InterruptAfter | src/cord_runtime/approval_inbox.py:226-286 | a claimed interrupt gets one record, its result's, and no other record moves; `resume` is handed over at most once, and only for a pending interrupt at a matching revision with the grant |
| ApprovalFacts.ActivityAfter | src/cord_runtime/approval_inbox.py:287-328 | without a success nothing is submitted, and the activity claim is kept exactly when the Run may still execute |
| ApprovalFacts.ThreadAfter | src/cord_runtime/approval_inbox.py:285-325 | a resumed Thread is recorded under its logical Run, its entry resolved, kept or held by how the Run ended, and exactly a success with an identity is reported and routed |
| ApprovalResults.UnresumedLeaves | src/cord_runtime/approval_inbox.py:220-286 | an answer that resumes nothing moves the record of its own interrupt alone, and gives its activity claim back unless the backend may have the resume |
| ApprovalResults.ResumedLeaves | src/cord_runtime/approval_inbox.py:267-325 | a resumed Run is reported, or tracked again, with the depth of the Thread's stored entry (0 without one), the subject read or else the entry's, and the assistant read; a success is then routed as its `run.finished` |
| Topology.ReferencedSubgraphs | src/cord_runtime/viewer.py:256-273 | exactly the in-document addresses reachable by one or more `subgraphId` hops, each with its structure |
| Expansions.ExpandAll | src/cord_runtime/web/presentation.py:456-486 | terminates on cyclic references; one entry per reference in node order |
| Expansions.NestIsMarked | src/cord_runtime/web/presentation.py:468-486 | over the document's closure, at every depth: cyclic exactly when open above, unresolved exactly when the document lacks it, else drawn and nested |
| Expansions.DomKeyInjective | src/cord_runtime/web/presentation.py:475-475 | a key determines its call site |
| Expansions.NestKeysAreDistinct | src/cord_runtime/web/presentation.py:456-486 | every key of the nested result is distinct |
| LayoutDepths.Search | src/cord_runtime/web/presentation.py:434-440 | one root's search reaches exactly what it can, at its shortest distances |
| Layout.AssignDepths | src/cord_runtime/web/presentation.py:429-440 | every node stands below the first root that reaches it by its shortest distance in the whole graph, each root one row below what earlier roots reach |
| Layout.NoEmptyRow | src/cord_runtime/web/presentation.py:441-443 | no row above an occupied one is empty |
| Drawing.LayoutGraph | src/cord_runtime/web/presentation.py:420-453 | every node once where it stands, every edge between its ends, the picture as large as its rows need |
| Drawing.SameRowApart | src/cord_runtime/web/presentation.py:446-449 | nodes of one row are at least 240 apart |
| Drawing.DrawingIsReadable | src/cord_runtime/web/presentation.py:441-453 | nodes strictly inside the picture, and a node in every row down to its height |
| Drawing.PlacesAreExact | src/cord_runtime/web/presentation.py:446-449 | each row spreads its nodes evenly over the whole width in document order, and a row is 100 below the one before |
| Drawing.WidthIsNeeded | src/cord_runtime/web/presentation.py:443-445 | the picture is 240 wide for each node of its fullest row |
| Drawing.EdgesMeetNodes | src/cord_runtime/web/presentation.py:450-453 | an edge begins and ends where its nodes are drawn |
| Overlay.NodeStatus | src/cord_runtime/web/presentation.py:489-496 | a pause shows over everything, several Steps as repeated, one by how it ended |
| Overlay.RunTopology | src/cord_runtime/web/presentation.py:524-559 | each Node with its own Steps in recorded order, and the Steps that name no Node |
| Overlay.EveryStepIsShown | src/cord_runtime/web/presentation.py:530-557 | each recorded Step is shown exactly once |
| Catalog.BuildCatalog | src/cord_runtime/viewer.py:412-467 | each recorded Run is held once, under its own Graph, and each listing of a Graph has its entry; attribution only to a sole connection |
| Catalog.LiveHeldWhen | src/cord_runtime/viewer.py:416-422 | a live view is held, as often as it was given, exactly when it names a Graph and its Run is not recorded |
| Catalog.AdvertisedWhen | src/cord_runtime/viewer.py:426-432 | a connection is an advertiser of a Graph exactly when it lists it |
| Catalog.AdvertisersCount | src/cord_runtime/viewer.py:426-446 | there are as many advertisers as listings, so a Run is attributed only where the Graph is listed once |
| Catalog.HeldOnce | src/cord_runtime/viewer.py:412-467 | no recorded Run is in two entries |
| Sse.IterEvents | src/cord_runtime/aegra_client.py:186-209 | the frames read are those of the line-by-line fold |
| Sse.CutIsPrefix | src/cord_runtime/aegra_client.py:186-209 | a stream cut anywhere gives a prefix of the whole stream's frames |
| Sse.CommentsAreInvisible | src/cord_runtime/aegra_client.py:202-203 | comment lines change nothing |
| Sse.StreamLifecycle | src/cord_runtime/aegra_client.py:212-255 | a connection passes on exactly its lifecycle frames whose data, if any, is JSON, in order |
| Sse.CutPassesPrefix | src/cord_runtime/aegra_client.py:215-255 | a connection that drops anywhere passes on a prefix of what the whole stream would |
| Sse.GraphStateIsInvisible | src/cord_runtime/aegra_client.py:212-230 | a message of any other event, wherever a server writes it, changes nothing that is passed on |
| Sse.LifecycleIsPassed | src/cord_runtime/aegra_client.py:212-255 | a message, wherever a server writes it, is passed on in its place exactly when it is one of the three lifecycle events and its data, if any, is JSON |
| Sse.RoundTrip | src/cord_runtime/aegra_client.py:186-209 | messages written in the wire format are read back, frame for frame |
| Live.LiveRun.Apply | src/cord_runtime/live_reconciliation.py:46-71 | applies an event unless its sequence is not newer |
| Live.NeverRegresses | src/cord_runtime/live_reconciliation.py:46-71 | a completion time never moves and the sequence never falls back |
| Live.FoldShows | src/cord_runtime/live_reconciliation.py:46-71 | folding a log, each event once: pending before the first event, running until a terminal one, completed when the first of those came, with the status the last of them names |
| Live.ReplaysChangeNothing | src/cord_runtime/live_reconciliation.py:46-71 | with any replays, folding what came equals folding a prefix of the log once each |
| Live.WatchLifecycle | src/cord_runtime/aegra_client.py:258-286 | yields, connection after connection, exactly the log from where the server resumes behind the last id passed on up to the drop; ends exactly with a terminal event or the last connection; has no gap up to the furthest event any connection reached; and folds to that prefix of the log |
| Live.BeginsBehindLast | src/cord_runtime/aegra_client.py:268-277 | a connection begins right behind the event passed on last, less what the server replays |
| Live.ReadToTheEnd | src/cord_runtime/aegra_client.py:272-282 | if any connection used read to the end of the log, all of it was yielded |
| Convergence.Reconcile | src/cord_runtime/live_reconciliation.py:87-126 | shows exactly the unrecorded Runs, each with its status and source: failed from `failed_after` past its completion on, pending from `pending_after` on, else live |
| Convergence.SourceMovesOn | src/cord_runtime/live_reconciliation.py:108-115 | with the clock a Run's source only moves live, pending, failed |
| Convergence.AwaitConvergence | src/cord_runtime/live_reconciliation.py:129-157 | stops within a poll count computed from the latest completion and the deadline; on exit every completed Run is recorded or failed |
| Convergence.ShownMovesOn | src/cord_runtime/live_reconciliation.py:147-157 | however the archive flickers, a Run shown twice has only moved on |

## Left out

- HTTP, subprocesses, health probes, files, JSON storage and torn read-modify-write in the stores
  without a lock: their results are inputs, their accesses single steps.
- Crash relaunch: covering is claimed only for runs where no liveness probe finds a running record's
  process dead, since a relaunch restarts the count at 1.
- Exact claim accounting: an answer can overwrite or resolve a held entry and can keep a claim with no
  entry, so counts are bounded below, never equal.
- Exactly-once cascades: a child may be skipped for concurrency or an unavailable Deployment.
- Recorder.Tracer.Record: scopes are opened inside one another; a child opened on an outer handle from
  within an inner one is not a program of the model.
- Rules.Decide: the interleaved protocol takes the target of a Signal as an input, so a rule file
  edited in between is covered, and rule validation is not modelled.
- LangfuseQuery.Compare: the checks of `wait` and `poll`, the waiting itself, and the counts and rows
  reported beside the verdict.
- Timeline.FlagRepeated: a `cord.resumed_from` that is a list or an object, on which the program raises.
- TreeBuilder.BuildExecutionTree: the flags `awaiting_resume` and `timeline_incomplete` are single
  expressions over the tree and are not modelled.
- Catalog.BuildCatalog: the order of entries and the topology facts copied into them.
- Overlay.RunTopology: one level; the nested diagrams of child calls repeat it for each child.
- Drawing.LayoutGraph: derived join edges are taken as extra input edges.
- Convergence.AwaitConvergence: the views are collected instead of yielded.
- Live.WatchLifecycle: the log is what Sse.StreamLifecycle passes on of the whole stream, with its data
  decoded; the deadline is the end of the list of connections; server and network choose replays and
  drops.
- ApprovalInbox.SubmitResponse: the approval-expiry clock it settles, and the identity lookups behind
  the assistant and subject it is given.
- OpenTelemetry, protobuf, redaction, topology producers, the web server, templates, the command line,
  diagnostics and connection validation.

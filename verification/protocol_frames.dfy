/** What each step of the protocol leaves alone. */
module ProtocolFrames {
  import opened Basics
  import opened Protocol

  /** The rest of the calls do not move. */
  ghost predicate OthersStay(w: World, v: World, id: Option<nat>) {
    forall j | Some(j) != id :: (j in v.calls <==> j in w.calls) && (j in v.calls ==> v.calls[j] == w.calls[j])
  }

  lemma OthersUntouched(conns: Connections, w: World, step: Step)
    requires Enabled(conns, w, step)
    ensures OthersStay(w, Do(conns, w, step), Actor(step))
  {
  }

  lemma RecordsUntouched(conns: Connections, w: World, step: Step)
    requires Enabled(conns, w, step) && !step.Start? && !step.ReleaseActive? && !step.SweepEntry? && !step.StopIdle?
    ensures Do(conns, w, step).records == w.records
  {
  }

  lemma EntriesUntouched(conns: Connections, w: World, step: Step)
    requires Enabled(conns, w, step) && !step.Track? && !step.Settle? && !step.SweepEntry?
    ensures Do(conns, w, step).entries == w.entries
  {
  }

  lemma SweepUntouched(conns: Connections, w: World, step: Step)
    requires Enabled(conns, w, step) && !step.BeginSweep? && !step.SweepEntry? && !step.EndSweep?
    ensures Do(conns, w, step).sweep == w.sweep
  {
  }

  lemma ClaimsUntouched(conns: Connections, w: World, step: Step)
    requires Enabled(conns, w, step) && !step.ClaimPair? && !step.ReleasePair? && !step.SweepEntry?
    ensures Do(conns, w, step).claims == w.claims
  {
  }

  lemma HistoryUntouched(conns: Connections, w: World, step: Step)
    requires Enabled(conns, w, step)
    ensures !step.ClaimSignal? ==> Do(conns, w, step).claimCalls == w.claimCalls && Do(conns, w, step).signals == w.signals
    ensures !step.Execute? ==> Do(conns, w, step).submissions == w.submissions
    ensures !step.Resume? ==> Do(conns, w, step).resumes == w.resumes
    ensures !step.ResumeFails? && !step.ResumeReturns? ==> Do(conns, w, step).replies == w.replies
  {
  }
}

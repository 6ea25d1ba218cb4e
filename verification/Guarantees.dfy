/** Fencing, cancellation, completion, restart and progress guarantees over whole runs. */
module Guarantees {
  import opened Basics
  import opened Vocabulary
  import opened ProgressModel
  import opened Model
  import opened Lifecycle
  import opened Runs

  // ---- Fencing -------------------------------------------------------------

  /** The generation a fenced call presents. */
  function Fence(op: Op): Option<u64> {
    match op
    case OpCommitCompletion(g) => Some(g)
    case OpWorkerLost(_, _, g) => Some(g)
    case OpPlanRestart(_, g) => Some(g)
    case OpRequestSuspend(g) => Some(g)
    case OpCompleteSuspend(g) => Some(g)
    case OpRequestResume(g) => Some(g)
    case OpRequestMigration(g) => Some(g)
    case OpCommitMigration(g, _, _) => Some(g)
    case OpCancel(g) => Some(g)
    case OpCompleteCancellation(g) => Some(g)
    case _ => None
  }

  /** A fenced call with any generation but the current one changes nothing at all, not even the log. */
  lemma StaleCallsDoNothing(w: Workload, c: Call)
    requires Fence(c.op).Some? && Fence(c.op).value != w.generation
    ensures Made(w, c) == Step(w, REJECT_STALE_WORKLOAD_GENERATION)
  {
    hide Guarded, CompletionEvidence;
  }

  lemma {:induction false} RunSplits(w: Workload, calls: seq<Call>, i: nat, j: nat)
    requires i <= j <= |calls|
    ensures Run(w, calls[..j]) == Run(Run(w, calls[..i]), calls[i..j])
  {
    assert calls[..j] == calls[..i] + calls[i..j];
    RunAppends(w, calls[..i], calls[i..j]);
  }

  /**
   * A superseded generation stays refused: once some later point of the run has more episodes, a call
   * fenced by the old generation leaves the workload of that later point exactly as it is.
   */
  lemma SupersededStaysRefused(w: Workload, calls: seq<Call>, i: nat, j: nat, c: Call)
    requires Inv(w) && i <= j <= |calls|
    requires GenerationsLeft(Run(w, calls[..j]))
    requires |Run(w, calls[..j]).episodes| != |Run(w, calls[..i]).episodes|
    requires Fence(c.op) == Some(Run(w, calls[..i]).generation)
    ensures Run(w, calls[..i]).generation < Run(w, calls[..j]).generation
    ensures Made(Run(w, calls[..j]), c) == Step(Run(w, calls[..j]), REJECT_STALE_WORKLOAD_GENERATION)
  {
    hide Inv, Made, Fence;
    RunKeepsInv(w, calls[..i]);
    RunSplits(w, calls, i, j);
    EpisodesGrow(Run(w, calls[..i]), calls[i..j]);
    RunKeepsInv(w, calls[..j]);
    GenerationExact(Run(w, calls[..i]));
    GenerationExact(Run(w, calls[..j]));
    StaleCallsDoNothing(Run(w, calls[..j]), c);
  }

  /** In any interleaving, at most one commitMigration fenced by a given generation is allowed. */
  lemma OneMigrationPerGeneration(w: Workload, calls: seq<Call>, i: nat, j: nat)
    requires Inv(w) && i < j < |calls| && GenerationsLeft(Run(w, calls[..j]))
    requires calls[i].op.OpCommitMigration? && Made(Run(w, calls[..i]), calls[i]).out.ALLOW?
    requires calls[j].op.OpCommitMigration? && calls[j].op.expecting == calls[i].op.expecting
    ensures Made(Run(w, calls[..j]), calls[j]) == Step(Run(w, calls[..j]), REJECT_STALE_WORKLOAD_GENERATION)
  {
    hide Inv, Apply;
    var u := Run(w, calls[..i]);
    assert calls[..i + 1][..i] == calls[..i];
    var v := Run(w, calls[..i + 1]);
    RunKeepsInv(w, calls[..i]);
    assert |v.episodes| == |u.episodes| + 1 && calls[i].op.expecting == u.generation by {
      if calls[i].op.expecting != u.generation {
        StaleCallsDoNothing(u, calls[i]);
      }
      MigrateAppends(u, calls[i].op.expecting, calls[i].op.worker, calls[i].op.boot, calls[i].minted);
    }
    RunKeepsInv(w, calls[..i + 1]);
    RunSplits(w, calls, i + 1, j);
    EpisodesGrow(v, calls[i + 1..j]);
    SupersededStaysRefused(w, calls, i, j, calls[j]);
  }

  // ---- Cancellation --------------------------------------------------------

  /** No call switches the race rule away from CANCEL_FIRST. */
  predicate StaysCancelFirst(calls: seq<Call>) {
    forall i | 0 <= i < |calls| && calls[i].op.OpSetPolicy? :: calls[i].op.policy.cancelRace.CANCEL_FIRST?
  }

  predicate CancelHolds(w: Workload) {
    w.cancel.requested && w.policy.cancelRace.CANCEL_FIRST? && !w.state.COMPLETED?
  }

  lemma ControlKeepsCancel(w: Workload, op: Op, minted: u64)
    requires CancelHolds(w) && !TouchesEpisodes(op)
    requires op.OpSetPolicy? ==> op.policy.cancelRace.CANCEL_FIRST?
    ensures CancelHolds(Apply(w, op, minted).w)
  {
    hide Guarded, CompleteCancellation, TransitionOutcome;
    GuardedFrame();
    CompoundCalls();
  }

  lemma EpisodeCallKeepsCancel(w: Workload, op: Op, minted: u64)
    requires CancelHolds(w) && TouchesEpisodes(op)
    ensures CancelHolds(Apply(w, op, minted).w)
  {
    hide Guarded, StartEpisode, CommitMigration, CommitCompletion, CompleteSuspend, TransitionOutcome, CompletionEvidence;
    GuardedFrame();
    CompoundCalls();
  }

  lemma {:induction false} CancelKeepsWinning(w: Workload, calls: seq<Call>)
    requires CancelHolds(w) && StaysCancelFirst(calls)
    ensures CancelHolds(Run(w, calls))
    decreases |calls|
  {
    if calls != [] {
      hide Apply, CancelHolds;
      var c := calls[|calls| - 1];
      CancelKeepsWinning(w, calls[..|calls| - 1]);
      if TouchesEpisodes(c.op) {
        EpisodeCallKeepsCancel(Run(w, calls[..|calls| - 1]), c.op, c.minted);
      } else {
        ControlKeepsCancel(Run(w, calls[..|calls| - 1]), c.op, c.minted);
      }
    }
  }

  lemma CancelTakesHold(w: Workload, cancel: Call)
    requires cancel.op.OpCancel? || cancel.op.OpCompleteCancellation?
    requires Fence(cancel.op) == Some(w.generation) && !IsTerminal(w.state) && w.policy.cancelRace.CANCEL_FIRST?
    ensures CancelHolds(Made(w, cancel).w)
  {
    hide Guarded, CompleteCancellation, TransitionOutcome;
    GuardedFrame();
    CompoundCalls();
  }

  lemma HeldNotCompleted(w: Workload)
    ensures CancelHolds(w) ==> !w.state.COMPLETED?
  {
  }

  /**
   * Under CANCEL_FIRST, a cancel that passes its fence and terminal check wins for good, even when its
   * transition is refused: no later sequence of calls completes the workload.
   */
  lemma CancelFirstWins(w: Workload, cancel: Call, calls: seq<Call>)
    requires cancel.op.OpCancel? || cancel.op.OpCompleteCancellation?
    requires Fence(cancel.op) == Some(w.generation) && !IsTerminal(w.state)
    requires w.policy.cancelRace.CANCEL_FIRST? && StaysCancelFirst(calls)
    ensures !Run(Made(w, cancel).w, calls).state.COMPLETED?
  {
    hide Made, CancelHolds;
    CancelTakesHold(w, cancel);
    HeldNotCompleted(Run(Made(w, cancel).w, calls));
    CancelKeepsWinning(Made(w, cancel).w, calls);
  }

  /** `v` can differ from the finally cancelled `w` only in bookkeeping: nothing runs, counts or completes. */
  predicate Frozen(w: Workload, v: Workload) {
    && v.cancel.finished && !v.state.COMPLETED?
    && |v.episodes| == |w.episodes| && v.generation == w.generation
    && v.progress.completed == w.progress.completed && v.progress.checkpointed == w.progress.checkpointed
  }

  lemma ControlKeepsFinished(w: Workload, op: Op, minted: u64)
    requires w.cancel.finished && !TouchesEpisodes(op)
    ensures Apply(w, op, minted).w.cancel.finished
  {
    hide Guarded, CompleteCancellation, TransitionOutcome, Gate, CurrentEpisode;
    GuardedFrame();
    CompoundCalls();
  }

  lemma EpisodeCallKeepsFinished(w: Workload, op: Op, minted: u64)
    requires w.cancel.finished && TouchesEpisodes(op) && !Reassigns(op)
    ensures Apply(w, op, minted).w.cancel.finished
  {
    hide Guarded, CommitCompletion, CompleteSuspend, TransitionOutcome, CompletionEvidence, FindEpisode, CurrentEpisode;
    GuardedFrame();
    CompoundCalls();
  }

  lemma FinishedStaysFinished(w: Workload, c: Call)
    requires w.cancel.finished && !Reassigns(c.op)
    ensures Made(w, c).w.cancel.finished
  {
    hide Apply;
    if TouchesEpisodes(c.op) {
      EpisodeCallKeepsFinished(w, c.op, c.minted);
    } else {
      ControlKeepsFinished(w, c.op, c.minted);
    }
  }

  lemma FinishedRefusesHandover(w: Workload, c: Call)
    requires Phase(w) && w.cancel.finished && (c.op.OpStartEpisode? || c.op.OpCommitMigration?)
    ensures Made(w, c).w == w
  {
    hide StartEpisode, CommitMigration;
    CompoundCalls();
  }

  lemma FinishedRefusesReport(w: Workload, c: Call)
    requires w.cancel.finished && c.op.OpProgress?
    ensures Made(w, c).w == w
  {
    hide IsTerminal, IsCancelling;
  }

  lemma FinishedFreezesOneCall(w: Workload, c: Call)
    requires Inv(w) && w.cancel.finished
    ensures Frozen(w, Made(w, c).w)
  {
    hide Apply, LogOk, Handoff;
    FinishedNotCompleted(w);
    if c.op.OpProgress? {
      FinishedRefusesReport(w, c);
    } else if Reassigns(c.op) {
      FinishedRefusesHandover(w, c);
    } else {
      StepKeepsInv(w, c);
      FinishedStaysFinished(w, c);
      RelabelOnly(w, c.op, c.minted);
    }
  }

  /**
   * Once cancellation is final - even if completeCancellation itself was refused - no episode starts,
   * no progress is accepted and COMPLETED is unreachable, under either race rule.
   */
  lemma {:induction false} FinalCancellationFreezes(w: Workload, calls: seq<Call>)
    requires Inv(w) && w.cancel.finished
    ensures Frozen(w, Run(w, calls))
    decreases |calls|
  {
    hide Inv, Made;
    if calls == [] {
      FinishedNotCompleted(w);
    } else {
      FinalCancellationFreezes(w, calls[..|calls| - 1]);
      RunKeepsInv(w, calls[..|calls| - 1]);
      FinishedFreezesOneCall(Run(w, calls[..|calls| - 1]), calls[|calls| - 1]);
    }
  }

  lemma FinishedNotCompleted(w: Workload)
    requires Inv(w)
    ensures w.cancel.finished ==> !w.state.COMPLETED?
  {
  }

  // ---- Completion ----------------------------------------------------------

  lemma NonCommitNeverCompletes(w: Workload, c: Call)
    requires !w.state.COMPLETED? && !c.op.OpCommitCompletion?
    ensures !Made(w, c).w.state.COMPLETED?
  {
    if TouchesEpisodes(c.op) {
      EpisodeCallNeverCompletes(w, c.op, c.minted);
    } else {
      ControlNeverCompletes(w, c.op, c.minted);
    }
    hide Apply;
  }

  lemma ControlNeverCompletes(w: Workload, op: Op, minted: u64)
    requires !w.state.COMPLETED? && !TouchesEpisodes(op)
    ensures !Apply(w, op, minted).w.state.COMPLETED?
  {
    hide Guarded, CompleteCancellation, TransitionOutcome, CurrentEpisode;
    GuardedFrame();
    CompoundCalls();
  }

  lemma EpisodeCallNeverCompletes(w: Workload, op: Op, minted: u64)
    requires !w.state.COMPLETED? && TouchesEpisodes(op) && !op.OpCommitCompletion?
    ensures !Apply(w, op, minted).w.state.COMPLETED?
  {
    hide Guarded, StartEpisode, CommitMigration, CompleteSuspend, TransitionOutcome, FindEpisode, CurrentEpisode;
    GuardedFrame();
    CompoundCalls();
  }

  predicate Completes(w: Workload, expecting: u64) {
    && expecting == w.generation && !w.policy.completion.kind.EXPLICIT_FINALIZE? && CompletionEvidence(w)
    && !(w.cancel.requested && w.policy.cancelRace.CANCEL_FIRST?) && CommitsFrom(w.state)
  }

  lemma CommitCompletesIff(w: Workload, expecting: u64)
    requires !w.state.COMPLETED?
    ensures CommitCompletion(w, expecting).w.state.COMPLETED? <==> Completes(w, expecting)
  {
    hide CommitCompletion, CurrentEpisode;
    CommitAllOrNothing(w, expecting);
  }

  lemma CommitIs(w: Workload, expecting: u64, minted: u64)
    ensures Made(w, Call(OpCommitCompletion(expecting), minted)) == CommitCompletion(w, expecting)
  {
  }

  /** Exactly which call completes a workload, with what evidence, under the policy then in force. */
  lemma CompletesIff(w: Workload, c: Call)
    requires !w.state.COMPLETED?
    ensures Made(w, c).w.state.COMPLETED? <==> c.op.OpCommitCompletion? && Completes(w, c.op.expecting)
  {
    hide Made, Completes, CommitCompletion;
    if c.op.OpCommitCompletion? {
      CommitCompletesIff(w, c.op.expecting);
      CommitIs(w, c.op.expecting, c.minted);
    } else {
      NonCommitNeverCompletes(w, c);
    }
  }

  /** The call of the run that completed the workload. */
  ghost predicate CompletedAt(w: Workload, calls: seq<Call>, k: nat) {
    && k < |calls| && calls[k].op.OpCommitCompletion?
    && var u := Run(w, calls[..k]);
       && !u.state.COMPLETED? && Made(u, calls[k]).w.state.COMPLETED?
       && u.episodes != [] && CompletionEvidence(u) && !u.policy.completion.kind.EXPLICIT_FINALIZE?
       && (u.policy.completion.kind.SINGLE_RESULT? ==> LastCompleted(u.episodes))
       && (u.policy.completion.kind.ALL_PHASES? ==> LastCompleted(u.episodes) && Complete(u.progress))
       && (u.policy.completion.kind.REQUIRED_UNITS? ==> Complete(u.progress))
  }

  lemma CompletionStep(w: Workload, calls: seq<Call>)
    requires Inv(w) && calls != [] && !Run(w, calls[..|calls| - 1]).state.COMPLETED? && Run(w, calls).state.COMPLETED?
    ensures CompletedAt(w, calls, |calls| - 1)
  {
    hide Made, Inv, CompletionEvidence, LastCompleted;
    var u, c := Run(w, calls[..|calls| - 1]), calls[|calls| - 1];
    RunKeepsInv(w, calls[..|calls| - 1]);
    CompletesIff(u, c);
    EvidenceUnderInv(u);
  }

  lemma EvidenceUnderInv(u: Workload)
    requires Inv(u) && CompletionEvidence(u) && CommitsFrom(u.state)
    ensures u.episodes != []
    ensures u.policy.completion.kind.SINGLE_RESULT? || u.policy.completion.kind.ALL_PHASES? ==> LastCompleted(u.episodes)
    ensures u.policy.completion.kind.ALL_PHASES? || u.policy.completion.kind.REQUIRED_UNITS? ==> Complete(u.progress)
  {
    hide LogOk;
  }

  /**
   * Completion rests on evidence: a run that ends COMPLETED contains the commit that completed it, its
   * policy's evidence was there at that moment, and the authoritative episode is marked completed.
   */
  lemma {:induction false} CompletionRestsOnEvidence(w: Workload, calls: seq<Call>)
    requires Inv(w) && !w.state.COMPLETED? && Run(w, calls).state.COMPLETED?
    ensures exists k: nat :: CompletedAt(w, calls, k)
    ensures LastCompleted(Run(w, calls).episodes)
    decreases |calls|
  {
    hide Made, LastCompleted;
    RunKeepsInv(w, calls);
    CompletedHasProof(Run(w, calls));
    var n := |calls| - 1;
    if Run(w, calls[..n]).state.COMPLETED? {
      CompletionRestsOnEvidence(w, calls[..n]);
      var k: nat :| CompletedAt(w, calls[..n], k);
      assert calls[..n][..k] == calls[..k];
      assert CompletedAt(w, calls, k);
    } else {
      CompletionStep(w, calls);
    }
  }

  lemma CompletedHasProof(w: Workload)
    requires Inv(w) && w.state.COMPLETED?
    ensures LastCompleted(w.episodes)
  {
  }

  // ---- Progress in 64-bit arithmetic ---------------------------------------

  /** Completed never exceeds a known total. */
  predicate WithinTotal(p: Progress) {
    p.totalKind.TOTAL_KNOWN? ==> p.completed <= p.total
  }

  /** Everything `reportProgress` asks about the episode and the lifecycle. */
  predicate MayReport(w: Workload, episode: u64, episodeGen: u64) {
    var i := FindEpisode(w.episodes, episode);
    && i < |w.episodes| && w.episodes[i].generation == episodeGen && w.episodes[i].authoritative
    && !w.cancel.finished && !IsCancelling(w.state) && !IsTerminal(w.state)
  }

  /**
   * Although the double-count test adds modulo 2^64, a report is accepted exactly when the true sum
   * stays within the known total, or within 64 bits when the total is unknown.
   */
  lemma ReportAcceptedIff(w: Workload, episode: u64, episodeGen: u64, delta: u64, durable: bool)
    requires WithinTotal(w.progress)
    ensures var s := ReportProgress(w, episode, episodeGen, delta, durable);
            && (s.out.ALLOW? <==>
                  && MayReport(w, episode, episodeGen)
                  && w.progress.completed + delta <= if w.progress.totalKind.TOTAL_KNOWN? then w.progress.total else TWO64 - 1)
            && (s.out.ALLOW? ==> s.w.progress.completed == w.progress.completed + delta)
            && WithinTotal(s.w.progress)
  {
  }

  /** No call re-declares the total. */
  predicate TotalFixed(calls: seq<Call>) {
    forall i | 0 <= i < |calls| :: !calls[i].op.OpDeclareTotal?
  }

  predicate ProgressKept(p: Progress, q: Progress) {
    q.totalKind == p.totalKind && q.total == p.total && p.completed <= q.completed && q.checkpointed <= q.completed && WithinTotal(q)
  }

  lemma ControlKeepsTotal(w: Workload, op: Op, minted: u64)
    requires !op.OpDeclareTotal? && !op.OpProgress?
    ensures Apply(w, op, minted).w.progress == w.progress
  {
    hide Guarded, TransitionOutcome, CompletionEvidence, FindEpisode, CurrentEpisode, Gate;
    hide StartEpisode, CommitCompletion, CompleteCancellation, CompleteSuspend, CommitMigration;
    GuardedFrame();
    CompoundCalls();
  }

  lemma ProgressNeverOverruns(w: Workload, calls: seq<Call>)
    requires Inv(w) && WithinTotal(w.progress) && TotalFixed(calls)
    ensures ProgressKept(w.progress, Run(w, calls).progress)
    decreases |calls|
  {
    hide Apply, Inv;
    InvCheckpoint(w);
    if calls != [] {
      var u, c := Run(w, calls[..|calls| - 1]), calls[|calls| - 1];
      ProgressNeverOverruns(w, calls[..|calls| - 1]);
      RunKeepsInv(w, calls);
      InvCheckpoint(Run(w, calls));
      match c.op {
        case OpProgress(episode, episodeGen, delta, durable) =>
          ReportStep(u, c);
        case _ =>
          ControlKeepsTotal(u, c.op, c.minted);
      }
    }
  }

  lemma InvCheckpoint(w: Workload)
    requires Inv(w)
    ensures w.progress.checkpointed <= w.progress.completed
  {
  }

  lemma ReportStep(w: Workload, c: Call)
    requires WithinTotal(w.progress) && c.op.OpProgress?
    ensures var p := Made(w, c).w.progress;
            p.totalKind == w.progress.totalKind && p.total == w.progress.total && w.progress.completed <= p.completed && WithinTotal(p)
  {
    hide FindEpisode;
  }
}

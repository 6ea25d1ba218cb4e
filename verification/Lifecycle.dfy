/** What every single call keeps, proved one property at a time. */
module Lifecycle {
  import opened Basics
  import opened Vocabulary
  import opened ProgressModel
  import opened Model

  // ---- Guarded transitions, once and for all -------------------------------

  /** A guarded transition touches the state and the log only, and moves exactly when allowed. */
  lemma GuardedFrame()
    ensures forall w: Workload, to, e, r {:trigger Guarded(w, to, e, r)} ::
              var s := Guarded(w, to, e, r);
              && s.w == w.(state := s.w.state, history := s.w.history, revision := s.w.revision)
              && s.w.state == (if s.out.ALLOW? then to else w.state)
              && s.out == TransitionOutcome(w, to, e)
  {
  }

  /** The inner edges of compound calls are never refused once the first one is taken. */
  lemma EpisodeEdges()
    ensures forall w: Workload {:trigger TransitionOutcome(w, STARTING, w.generation)} ::
              w.state.READY? ==> TransitionOutcome(w, STARTING, w.generation).ALLOW?
    ensures forall w: Workload {:trigger TransitionOutcome(w, READY, w.generation)} ::
              ResumeEligible(w.state) ==> TransitionOutcome(w, READY, w.generation).ALLOW?
    ensures forall w: Workload {:trigger TransitionOutcome(w, RUNNING, w.generation)} ::
              w.state.STARTING? || w.state.MIGRATING? ==> TransitionOutcome(w, RUNNING, w.generation).ALLOW?
    ensures forall w: Workload {:trigger TransitionOutcome(w, MIGRATING, w.generation)} ::
              w.state.MIGRATION_PENDING? || w.state.MIGRATING? ==> TransitionOutcome(w, MIGRATING, w.generation).ALLOW?
    ensures forall w: Workload {:trigger TransitionOutcome(w, RECOVERING, w.generation)} ::
              w.state.RUNNING? || w.state.DEGRADED? ==> TransitionOutcome(w, RECOVERING, w.generation).ALLOW?
  {
  }

  lemma EndingEdges()
    ensures forall w: Workload {:trigger TransitionOutcome(w, COMPLETING, w.generation)} ::
              TransitionOutcome(w, COMPLETING, w.generation).ALLOW? <==> CommitsFrom(w.state)
    ensures forall w: Workload {:trigger TransitionOutcome(w, COMPLETED, w.generation)} ::
              w.state.COMPLETING? ==> TransitionOutcome(w, COMPLETED, w.generation).ALLOW?
    ensures forall w: Workload {:trigger TransitionOutcome(w, CANCELLING, w.generation)} ::
              w.state.CANCELLATION_REQUESTED? ==> TransitionOutcome(w, CANCELLING, w.generation).ALLOW?
    ensures forall w: Workload {:trigger TransitionOutcome(w, CANCELLED, w.generation)} ::
              w.state.CANCELLING? ==> TransitionOutcome(w, CANCELLED, w.generation).ALLOW?
    ensures forall w: Workload {:trigger TransitionOutcome(w, SUSPENDING, w.generation)} ::
              w.state.SUSPEND_REQUESTED? ==> TransitionOutcome(w, SUSPENDING, w.generation).ALLOW?
    ensures forall w: Workload {:trigger TransitionOutcome(w, SUSPENDED, w.generation)} ::
              w.state.SUSPENDING? ==> TransitionOutcome(w, SUSPENDED, w.generation).ALLOW?
  {
  }

  // ---- Compound calls are all-or-nothing -----------------------------------

  /** `v` is `w` with a possibly longer log. */
  ghost predicate SameButLog(v: Workload, w: Workload) {
    v == w.(history := v.history, revision := v.revision)
  }

  /** A fresh episode starts exactly from an eligible state of a workload not finally cancelled. */
  ghost predicate StartsOrNothing(w: Workload, started: Workload, s: Step) {
    && (s.out.ALLOW? <==> ResumeEligible(w.state) && !w.cancel.finished)
    && (if s.out.ALLOW? then SameButLog(s.w, started) else s.w == w)
  }

  lemma StartAllOrNothing(w: Workload, id: u64, owner: u64, ownerGen: u64)
    ensures StartsOrNothing(w, HandedOver(w, AdmittedEpisode(w, id, owner, ownerGen), true).(state := STARTING),
                            StartEpisode(w, id, owner, ownerGen, true))
  {
    hide Guarded, TransitionOutcome;
    GuardedFrame();
    EpisodeEdges();
  }

  predicate CommitsFrom(s: WorkloadState) {
    s.RUNNING? || s.DEGRADED? || s.CANCELLATION_REQUESTED? || s.COMPLETING?
  }

  predicate CommitAttempted(w: Workload, expecting: u64) {
    && expecting == w.generation && !IsTerminal(w.state) && CompletionEvidence(w)
    && !(w.cancel.requested && w.policy.cancelRace.CANCEL_FIRST?)
  }

  /** A commit reaches COMPLETED or leaves the state alone; the marks a refused one leaves are spelled out. */
  ghost predicate CommitsOrMarks(w: Workload, expecting: u64, s: Step) {
    && (s.out.ALLOW? <==> CommitAttempted(w, expecting) && CommitsFrom(w.state))
    && (if s.out.ALLOW? then SameButLog(s.w, CompletionMarked(w).(state := COMPLETED))
        else if CommitAttempted(w, expecting) then SameButLog(s.w, CompletionMarked(w))
        else s.w == w)
  }

  lemma CommitAllOrNothing(w: Workload, expecting: u64)
    ensures CommitsOrMarks(w, expecting, CommitCompletion(w, expecting))
  {
    hide Guarded, TransitionOutcome, CompletionEvidence, WithCurrentCompleted;
    GuardedFrame();
    EndingEdges();
  }

  predicate CancelsFrom(s: WorkloadState) {
    s.CANCELLED? || s.CANCELLATION_REQUESTED? || CanTransition(s, CANCELLATION_REQUESTED)
  }

  /** Cancellation completes in one call from every state with an edge to CANCELLATION_REQUESTED. */
  ghost predicate CancelsOrMarks(w: Workload, expecting: u64, s: Step) {
    && (s.out.ALLOW? <==> expecting == w.generation && CancelsFrom(w.state))
    && (if s.out.ALLOW?
        then SameButLog(s.w, w.(state := CANCELLED,
                                cancel := w.cancel.(finished := true, requested := w.cancel.requested || !w.state.CANCELLED?)))
        else if expecting == w.generation && !IsTerminal(w.state)
        then SameButLog(s.w, w.(cancel := w.cancel.(finished := true, requested := true)))
        else s.w == w)
  }

  lemma CancelAllOrNothing(w: Workload, expecting: u64)
    ensures CancelsOrMarks(w, expecting, CompleteCancellation(w, expecting))
  {
    hide Guarded;
    GuardedFrame();
    EndingEdges();
  }

  ghost predicate SuspendsOrNothing(w: Workload, expecting: u64, s: Step) {
    && (s.out.ALLOW? <==> expecting == w.generation && (w.state.SUSPENDED? || w.state.SUSPEND_REQUESTED? || w.state.SUSPENDING?))
    && (if s.out.ALLOW? && !w.state.SUSPENDED? then SameButLog(s.w, Quiesced(w).(state := SUSPENDED)) else s.w == w)
  }

  lemma SuspendAllOrNothing(w: Workload, expecting: u64)
    ensures SuspendsOrNothing(w, expecting, CompleteSuspend(w, expecting))
  {
    hide Guarded, TransitionOutcome;
    GuardedFrame();
    EndingEdges();
  }

  /** A migration hands authority over and resumes RUNNING, or changes nothing. */
  ghost predicate MigratesOrNothing(w: Workload, expecting: u64, migrated: Workload, s: Step) {
    && (s.out.ALLOW? <==> expecting == w.generation && (w.state.MIGRATION_PENDING? || w.state.MIGRATING?))
    && (if s.out.ALLOW? then SameButLog(s.w, migrated) else s.w == w)
  }

  lemma MigrateAllOrNothing(w: Workload, expecting: u64, worker: u64, boot: u64)
    ensures MigratesOrNothing(w, expecting, Adopted(w, worker, boot).(state := RUNNING), CommitMigration(w, expecting, worker, boot))
  {
    hide Guarded, TransitionOutcome;
    GuardedFrame();
    EpisodeEdges();
  }

  lemma CompoundCalls()
    ensures forall w: Workload, id, o, og {:trigger StartEpisode(w, id, o, og, true)} ::
              StartsOrNothing(w, HandedOver(w, AdmittedEpisode(w, id, o, og), true).(state := STARTING),
                              StartEpisode(w, id, o, og, true))
    ensures forall w: Workload, e {:trigger CommitCompletion(w, e)} :: CommitsOrMarks(w, e, CommitCompletion(w, e))
    ensures forall w: Workload, e {:trigger CompleteCancellation(w, e)} :: CancelsOrMarks(w, e, CompleteCancellation(w, e))
    ensures forall w: Workload, e {:trigger CompleteSuspend(w, e)} :: SuspendsOrNothing(w, e, CompleteSuspend(w, e))
    ensures forall w: Workload, e, k, b {:trigger CommitMigration(w, e, k, b)} ::
              MigratesOrNothing(w, e, Adopted(w, k, b).(state := RUNNING), CommitMigration(w, e, k, b))
  {
    hide StartEpisode, CommitCompletion, CompleteCancellation, CompleteSuspend, CommitMigration;
    hide StartsOrNothing, CommitsOrMarks, CancelsOrMarks, SuspendsOrNothing, MigratesOrNothing;
    forall w: Workload, id, o, og { StartAllOrNothing(w, id, o, og); }
    forall w: Workload, e { CommitAllOrNothing(w, e); }
    forall w: Workload, e { CancelAllOrNothing(w, e); }
    forall w: Workload, e { SuspendAllOrNothing(w, e); }
    forall w: Workload, e, k, b { MigrateAllOrNothing(w, e, k, b); }
  }

  /** The calls that may change an episode. */
  predicate TouchesEpisodes(op: Op) {
    op.OpStartEpisode? || op.OpAdmitDispatch? || op.OpProgress? || op.OpEpisodeCompleted? || op.OpWorkerLost?
    || op.OpCompleteSuspend? || op.OpCommitMigration? || op.OpCommitCompletion?
  }

  predicate SamePlace(w: Workload, v: Workload) {
    v.state == w.state && v.generation == w.generation && |v.episodes| == |w.episodes| && v.progress == w.progress
  }

  lemma RejectedEpisodeCall(w: Workload, op: Op, minted: u64)
    requires TouchesEpisodes(op)
    ensures !Apply(w, op, minted).out.ALLOW? ==> SamePlace(w, Apply(w, op, minted).w)
  {
    hide Guarded, TransitionOutcome, CompletionEvidence, IsTerminal;
    hide StartEpisode, CommitCompletion, CompleteSuspend, CommitMigration;
    GuardedFrame();
    EpisodeEdges();
    CompoundCalls();
  }

  lemma RejectedControlCall(w: Workload, op: Op, minted: u64)
    requires !TouchesEpisodes(op)
    ensures !Apply(w, op, minted).out.ALLOW? ==> SamePlace(w, Apply(w, op, minted).w)
  {
    hide Guarded, TransitionOutcome, Gate, CancelsFrom, IsTerminal, CompleteCancellation;
    GuardedFrame();
    CompoundCalls();
  }

  /** A call that is not allowed leaves state, generation, number of episodes and progress alone. */
  lemma RejectedCallsMoveNothing(w: Workload, op: Op, minted: u64)
    ensures !Apply(w, op, minted).out.ALLOW? ==> SamePlace(w, Apply(w, op, minted).w)
  {
    hide Apply, SamePlace;
    if TouchesEpisodes(op) {
      RejectedEpisodeCall(w, op, minted);
    } else {
      RejectedControlCall(w, op, minted);
    }
  }

  // ---- The audit log -------------------------------------------------------

  /** The state a log leads to from CREATED, None when some record does not start where the log stood. */
  function Replay(log: seq<Record>): Option<WorkloadState> {
    if log == [] then Some(CREATED)
    else
      var before := Replay(log[..|log| - 1]);
      var r := log[|log| - 1];
      if before.None? || before.value != r.from then None
      else if !r.outcome.ALLOW? then before
      else if CanTransition(r.from, r.to) then Some(r.to)
      else None
  }

  predicate LogTells(state: WorkloadState, log: seq<Record>, revision: u64) {
    Replay(log) == Some(state) && revision == Wrap(1 + |log|)
  }

  predicate LogOk(w: Workload) {
    LogTells(w.state, w.history, w.revision)
  }

  lemma GuardedKeepsLog()
    ensures forall w: Workload, to, e, r {:trigger Guarded(w, to, e, r)} :: LogOk(w) ==> LogOk(Guarded(w, to, e, r).w)
  {
    forall w: Workload, to, e, r | LogOk(w) ensures LogOk(Guarded(w, to, e, r).w) {
      var v := Guarded(w, to, e, r).w;
      if v.history != w.history {
        assert v.history[..|v.history| - 1] == w.history;
      }
    }
  }

  /** Every call keeps the log a path of table edges from CREATED to the current state. */
  lemma StepKeepsLog(w: Workload, op: Op, minted: u64)
    requires LogOk(w)
    ensures LogOk(Apply(w, op, minted).w)
  {
    hide Guarded, LogTells, TransitionOutcome, Gate, CompletionEvidence, FindEpisode, CurrentEpisode, IsTerminal, RestartClassAllowed;
    GuardedKeepsLog();
  }

  /** So do a raw transition and a finalize, which the engine does not expose. */
  lemma RawCallsKeepLog(w: Workload, to: WorkloadState, expecting: u64, reason: Bytes)
    requires LogOk(w)
    ensures LogOk(Guarded(w, to, expecting, reason).w)
    ensures LogOk(Finalize(w, expecting).w)
  {
    hide Guarded, LogTells;
    GuardedKeepsLog();
  }

  /** Exactly when finalize completes a workload: a pending cancellation is not asked about, even under CANCEL_FIRST. */
  lemma FinalizeIff(w: Workload, expecting: u64)
    ensures var s := Finalize(w, expecting);
            && (s.out.ALLOW? <==> expecting == w.generation && w.policy.completion.kind.EXPLICIT_FINALIZE? && CommitsFrom(w.state))
            && (if s.out.ALLOW? then SameButLog(s.w, w.(state := COMPLETED, completionGen := Next(w.completionGen)))
                else if expecting == w.generation && w.policy.completion.kind.EXPLICIT_FINALIZE? && !IsTerminal(w.state)
                then SameButLog(s.w, w.(completionGen := Next(w.completionGen)))
                else s.w == w)
  {
    hide Guarded, TransitionOutcome;
    GuardedFrame();
    EndingEdges();
  }

  /** A migration request that passes its fence and its policy, from a state that is active. */
  predicate MigrationAsked(w: Workload, expecting: u64) {
    && expecting == w.generation && !w.policy.migration.eligibility.MIG_NONE?
    && (IsActivelyRunning(w.state) || w.state.MIGRATION_PENDING?)
  }

  /**
   * Exactly when a migration request is allowed, and what a refused one does: from STARTING it is refused
   * by the edge table after it has been counted, in every other refused case nothing is touched.
   */
  lemma RequestMigrationIff(w: Workload, expecting: u64)
    ensures var s := RequestMigration(w, expecting);
            && (s.out.ALLOW? <==> MigrationAsked(w, expecting) && !w.state.STARTING?)
            && (if s.out.ALLOW? then SameButLog(s.w, MigrationCounted(w).(state := MIGRATION_PENDING))
                else if MigrationAsked(w, expecting) then w.state.STARTING? && SameButLog(s.w, MigrationCounted(w))
                else s.w == w)
            && (MigrationAsked(w, expecting) ==> s.w.migrations.gen != w.migrations.gen)
  {
    hide Guarded;
    GuardedFrame();
  }

  predicate CancelAsked(w: Workload, expecting: u64) {
    expecting == w.generation && !IsTerminal(w.state)
  }

  /** Exactly when a cancel request is allowed; one that is refused by the edge table alone still marks the request. */
  lemma RequestCancelIff(w: Workload, expecting: u64)
    ensures var s, marked := RequestCancellation(w, expecting), w.(cancel := w.cancel.(requested := true));
            && (s.out.ALLOW? <==> CancelAsked(w, expecting) && (IsCancelling(w.state) || CanTransition(w.state, CANCELLATION_REQUESTED)))
            && (if !CancelAsked(w, expecting) then s.w == w
                else SameButLog(s.w, if s.out.ALLOW? && !IsCancelling(w.state) then marked.(state := CANCELLATION_REQUESTED) else marked))
  {
    hide Guarded;
    GuardedFrame();
  }

  /**
   * Exactly when a planned restart is allowed: a slot must be spent and RESTART_PENDING be reachable. A slot
   * spent without the edge - from RUNNING, for one - is refused and stays spent.
   */
  lemma PlanRestartIff(w: Workload, expecting: u64, reason: Bytes)
    ensures var s, spends := PlanRestart(w, expecting, reason), SpendsSlot(w, OpPlanRestart(reason, expecting));
            && (s.out.ALLOW? <==> spends && (w.state.RESTART_PENDING? || CanTransition(w.state, RESTART_PENDING)))
            && (if spends
                then SameButLog(s.w, if s.out.ALLOW? then SlotSpent(w, reason).(state := RESTART_PENDING) else SlotSpent(w, reason))
                else s.w == w)
            && (spends && w.state.RUNNING? ==> s.out.REJECT_INVALID_TRANSITION? && s.w.restarts.count == w.restarts.count + 1)
  {
    hide Guarded, RestartClassAllowed;
    GuardedFrame();
  }

  /** Exactly when a transition straight to COMPLETED is allowed: work that never started needs the policy's consent. */
  lemma CompletedDirectlyIff(w: Workload, expecting: u64, reason: Bytes)
    ensures Guarded(w, COMPLETED, expecting, reason).out.ALLOW? <==>
            && expecting == w.generation
            && (w.state.COMPLETED? || w.state.COMPLETING? || w.state.CANCELLING?
                || (w.state.CREATED? && w.policy.completion.allowZeroWorkCompletion))
  {
    hide Logged;
  }

  // ---- The progress handoff chain ------------------------------------------

  /** Only the last episode has authority, and its own counters equal the workload's. */
  predicate Handoff(es: seq<Episode>, p: Progress) {
    && (es != [] ==>
          var last := es[|es| - 1];
          last.authoritative && last.progress.completed == p.completed && last.progress.checkpointed == p.checkpointed)
    && (forall i | 0 <= i < |es| - 1 :: !es[i].authoritative)
    && (forall i | 0 <= i < |es| :: es[i].generation == 1)
    && p.checkpointed <= p.completed
  }

  /** Everything but bookkeeping fields of one episode is as before. */
  predicate SameStanding(a: Episode, b: Episode) {
    a.authoritative == b.authoritative && a.generation == b.generation && a.progress == b.progress && a.id == b.id
  }

  predicate Relabelled(es: seq<Episode>, fs: seq<Episode>) {
    |es| == |fs| && forall i | 0 <= i < |es| :: SameStanding(es[i], fs[i]) && (es[i].completed ==> fs[i].completed)
  }

  predicate Reassigns(op: Op) {
    op.OpStartEpisode? || op.OpCommitMigration? || op.OpProgress?
  }

  predicate OnlyRelabels(w: Workload, v: Workload) {
    && Relabelled(w.episodes, v.episodes)
    && v.progress == w.progress.(totalKind := v.progress.totalKind, total := v.progress.total)
    && v.generation == w.generation && v.migrations.counter == w.migrations.counter
  }

  lemma ControlRelabels(w: Workload, op: Op, minted: u64)
    requires !TouchesEpisodes(op)
    ensures OnlyRelabels(w, Apply(w, op, minted).w) && Apply(w, op, minted).w.episodes == w.episodes
  {
    hide Relabelled;
    hide Guarded, TransitionOutcome, Gate, CancelsFrom, IsTerminal, CompleteCancellation;
    GuardedFrame();
    CompoundCalls();
    OneRelabelled();
  }

  lemma OneRelabelled()
    ensures forall es: seq<Episode> :: Relabelled(es, es)
    ensures forall es: seq<Episode>, i, e {:trigger es[i := e]} ::
              0 <= i < |es| && SameStanding(es[i], e) && (es[i].completed ==> e.completed) ==> Relabelled(es, es[i := e])
  {
  }

  lemma DispatchRelabels(w: Workload, episode: u64, worker: u64, boot: u64)
    ensures OnlyRelabels(w, AdmitDispatch(w, episode, worker, boot).w)
  {
    hide Guarded, TransitionOutcome, Relabelled;
    GuardedFrame();
    OneRelabelled();
  }

  lemma LossRelabels(w: Workload, worker: u64, boot: u64, expecting: u64)
    ensures OnlyRelabels(w, WorkerLost(w, worker, boot, expecting).w)
  {
    hide Guarded, TransitionOutcome, Relabelled;
    GuardedFrame();
    OneRelabelled();
  }

  lemma EndRelabels(w: Workload, expecting: u64)
    ensures OnlyRelabels(w, CommitCompletion(w, expecting).w)
    ensures OnlyRelabels(w, CompleteSuspend(w, expecting).w)
  {
    hide CommitCompletion, CompleteSuspend, CompletionEvidence, Relabelled;
    CommitAllOrNothing(w, expecting);
    SuspendAllOrNothing(w, expecting);
    OneRelabelled();
  }

  lemma MarkRelabels(w: Workload, episode: u64)
    ensures OnlyRelabels(w, MarkCompleted(w, episode).w)
  {
  }

  lemma EpisodeCallRelabels(w: Workload, op: Op, minted: u64)
    requires TouchesEpisodes(op) && !Reassigns(op)
    ensures OnlyRelabels(w, Apply(w, op, minted).w)
  {
    hide OnlyRelabels, AdmitDispatch, WorkerLost, CommitCompletion, CompleteSuspend, MarkCompleted;
    match op {
      case OpAdmitDispatch(episode, worker, boot) => DispatchRelabels(w, episode, worker, boot);
      case OpWorkerLost(worker, boot, expecting) => LossRelabels(w, worker, boot, expecting);
      case OpCommitCompletion(expecting) => EndRelabels(w, expecting);
      case OpCompleteSuspend(expecting) => EndRelabels(w, expecting);
      case OpEpisodeCompleted(episode) => MarkRelabels(w, episode);
    }
  }

  /** Calls other than starts, migrations and reports at most relabel episodes. */
  lemma RelabelOnly(w: Workload, op: Op, minted: u64)
    requires !Reassigns(op)
    ensures OnlyRelabels(w, Apply(w, op, minted).w)
  {
    hide Apply, OnlyRelabels;
    if TouchesEpisodes(op) {
      EpisodeCallRelabels(w, op, minted);
    } else {
      ControlRelabels(w, op, minted);
    }
  }

  /** What an accepted report does, without wrap-around: both sums stay in range. */
  lemma ReportEffect(w: Workload, episode: u64, episodeGen: u64, delta: u64, durable: bool)
    requires Handoff(w.episodes, w.progress)
    ensures var s := ReportProgress(w, episode, episodeGen, delta, durable);
            if s.out.ALLOW? then
              var n := |w.episodes| - 1;
              && n >= 0 && w.episodes[n].id == episode && FindEpisode(w.episodes, episode) == n
              && w.progress.completed + delta < TWO64
              && s.w.progress.completed == w.progress.completed + delta
              && s.w.episodes == w.episodes[n := w.episodes[n].(progress := s.w.episodes[n].progress)]
              && s.w == w.(progress := s.w.progress, episodes := s.w.episodes)
              && Handoff(s.w.episodes, s.w.progress)
            else s.w == w
  {
  }

  lemma StartKeepsHandoff(w: Workload, owner: u64, ownerGen: u64, minted: u64)
    requires Handoff(w.episodes, w.progress)
    ensures var v := Apply(w, OpStartEpisode(owner, ownerGen), minted).w; Handoff(v.episodes, v.progress)
  {
    hide StartEpisode;
    StartAllOrNothing(w, minted, owner, ownerGen);
  }

  lemma MigrateKeepsHandoff(w: Workload, expecting: u64, worker: u64, boot: u64, minted: u64)
    requires Handoff(w.episodes, w.progress)
    ensures var v := Apply(w, OpCommitMigration(expecting, worker, boot), minted).w; Handoff(v.episodes, v.progress)
  {
    hide CommitMigration;
    MigrateAllOrNothing(w, expecting, worker, boot);
  }

  lemma ReportKeepsHandoff(w: Workload, episode: u64, episodeGen: u64, delta: u64, durable: bool, minted: u64)
    requires Handoff(w.episodes, w.progress)
    ensures var v := Apply(w, OpProgress(episode, episodeGen, delta, durable), minted).w; Handoff(v.episodes, v.progress)
  {
    hide ReportProgress;
    ReportEffect(w, episode, episodeGen, delta, durable);
  }

  lemma RelabelKeepsHandoff(w: Workload, op: Op, minted: u64)
    requires Handoff(w.episodes, w.progress) && !Reassigns(op)
    ensures var v := Apply(w, op, minted).w; Handoff(v.episodes, v.progress)
  {
    hide Apply;
    RelabelOnly(w, op, minted);
  }

  /** Every call keeps authority with the last episode alone, its counters equal to the workload's. */
  lemma StepKeepsHandoff(w: Workload, op: Op, minted: u64)
    requires Handoff(w.episodes, w.progress)
    ensures var v := Apply(w, op, minted).w; Handoff(v.episodes, v.progress)
  {
    hide Apply, Handoff;
    match op {
      case OpStartEpisode(owner, ownerGen) =>
        StartKeepsHandoff(w, owner, ownerGen, minted);
      case OpCommitMigration(expecting, worker, boot) =>
        MigrateKeepsHandoff(w, expecting, worker, boot, minted);
      case OpProgress(episode, episodeGen, delta, durable) =>
        ReportKeepsHandoff(w, episode, episodeGen, delta, durable, minted);
      case _ =>
        RelabelKeepsHandoff(w, op, minted);
    }
  }

  // ---- Generation, restarts and the states calls can rest in ---------------

  /** Episodes are only ever appended, and each one advances the generation. */
  predicate GenerationCounts(w: Workload) {
    w.generation == Wrap(1 + |w.episodes|)
  }

  predicate Appends(w: Workload, v: Workload) {
    |v.episodes| == |w.episodes| + 1 && v.generation == Next(w.generation)
  }

  lemma StartAppends(w: Workload, owner: u64, ownerGen: u64, minted: u64)
    ensures var s := Apply(w, OpStartEpisode(owner, ownerGen), minted);
            if s.out.ALLOW? then Appends(w, s.w) else s.w == w
  {
    hide StartEpisode;
    StartAllOrNothing(w, minted, owner, ownerGen);
  }

  lemma MigrateAppends(w: Workload, expecting: u64, worker: u64, boot: u64, minted: u64)
    ensures var s := Apply(w, OpCommitMigration(expecting, worker, boot), minted);
            if s.out.ALLOW? then Appends(w, s.w) else s.w == w
  {
    hide CommitMigration;
    MigrateAllOrNothing(w, expecting, worker, boot);
  }

  lemma OthersDoNotAppend(w: Workload, op: Op, minted: u64)
    requires !op.OpStartEpisode? && !op.OpCommitMigration?
    ensures var v := Apply(w, op, minted).w; |v.episodes| == |w.episodes| && v.generation == w.generation
  {
    if !op.OpProgress? {
      hide Apply;
      RelabelOnly(w, op, minted);
    }
  }

  /** The number of episodes moves exactly when an allowed call hands authority over. */
  lemma StepKeepsGeneration(w: Workload, op: Op, minted: u64)
    requires GenerationCounts(w)
    ensures var s := Apply(w, op, minted);
            && GenerationCounts(s.w)
            && (if s.out.ALLOW? && (op.OpStartEpisode? || op.OpCommitMigration?)
                then |s.w.episodes| == |w.episodes| + 1
                else |s.w.episodes| == |w.episodes| && s.w.generation == w.generation)
  {
    hide Apply;
    WrapAdds(1 + |w.episodes|, 1);
    match op {
      case OpStartEpisode(owner, ownerGen) => StartAppends(w, owner, ownerGen, minted);
      case OpCommitMigration(expecting, worker, boot) => MigrateAppends(w, expecting, worker, boot, minted);
      case _ => OthersDoNotAppend(w, op, minted);
    }
  }

  /** The two restart counters agree. */
  predicate RestartsAgree(w: Workload) {
    w.restarts.gen == w.restarts.count
  }

  /** The call passes the fence, the terminal check, the class check and the limit check. */
  predicate SpendsSlot(w: Workload, op: Op) {
    && op.OpPlanRestart? && op.expecting == w.generation && !IsTerminal(w.state)
    && RestartClassAllowed(w.policy.restart.kind, op.reason) && w.restarts.count < w.policy.restart.maxRestarts
  }

  /** A slot is spent exactly when all four checks pass, whatever the edge check then says. */
  lemma SlotSpentIff(w: Workload, op: Op, minted: u64)
    requires RestartsAgree(w)
    ensures var v := Apply(w, op, minted).w;
            && RestartsAgree(v)
            && v.restarts.count == w.restarts.count + (if SpendsSlot(w, op) then 1 else 0)
  {
    hide Guarded, TransitionOutcome, Gate, CancelsFrom, CompletionEvidence, FindEpisode, CurrentEpisode, RestartClassAllowed;
    hide StartEpisode, CompleteCancellation, CompleteSuspend, CommitCompletion, CommitMigration;
    GuardedFrame();
    CompoundCalls();
  }

  /** Waiting to run for the first time, or between episodes. */
  predicate Parked(s: WorkloadState) {
    s.CREATED? || s.VALIDATING? || s.WAITING_FOR_DEPENDENCIES? || s.WAITING_FOR_RESOURCES? || s.READY?
  }

  /** In, or after, some episode. */
  predicate Engaged(s: WorkloadState) {
    s.STARTING? || s.RUNNING? || s.SUSPEND_REQUESTED? || s.SUSPENDED? || s.MIGRATION_PENDING? || s.RECOVERING?
    || s.RESTART_PENDING? || s.CANCELLATION_REQUESTED? || s.COMPLETED? || s.CANCELLED?
  }

  predicate LastCompleted(es: seq<Episode>) {
    es != [] && es[|es| - 1].completed
  }

  /** Where a workload driven by calls can rest, and what its flags then say. */
  predicate PhaseOk(state: WorkloadState, cancel: Cancellation, es: seq<Episode>) {
    && (Parked(state) || Engaged(state))
    && (Engaged(state) ==> es != [])
    && (cancel.finished ==> Parked(state) || state.CANCELLED?)
    && (state.CANCELLED? ==> cancel.finished)
    && (state.CANCELLATION_REQUESTED? ==> cancel.requested)
    && (state.COMPLETED? ==> LastCompleted(es) && !cancel.requested && !cancel.finished)
  }

  predicate Phase(w: Workload) {
    PhaseOk(w.state, w.cancel, w.episodes)
  }

  lemma CancelKeepsPhase(w: Workload, op: Op, minted: u64)
    requires Phase(w) && (op.OpCancel? || op.OpCompleteCancellation?)
    ensures Phase(Apply(w, op, minted).w)
  {
    hide Guarded, CompleteCancellation, LastCompleted;
    GuardedFrame();
    CompoundCalls();
  }

  lemma ControlKeepsPhase(w: Workload, op: Op, minted: u64)
    requires Phase(w) && !TouchesEpisodes(op)
    ensures Phase(Apply(w, op, minted).w)
  {
    if op.OpCancel? || op.OpCompleteCancellation? {
      hide Apply, Phase;
      CancelKeepsPhase(w, op, minted);
    } else {
      hide Guarded, LastCompleted, CompleteCancellation, RestartClassAllowed;
      GuardedFrame();
    }
  }

  lemma RelabelledKeepsPhase(state: WorkloadState, cancel: Cancellation, es: seq<Episode>, fs: seq<Episode>)
    requires PhaseOk(state, cancel, es) && Relabelled(es, fs)
    ensures PhaseOk(state, cancel, fs)
  {
  }

  /** The states a dispatch, a loss or a completion mark can lead to. */
  predicate DispatchMoves(w: Workload, v: Workload) {
    && v.cancel == w.cancel
    && (v.state == w.state || (w.state.STARTING? && v.state.RUNNING?) || ((w.state.RUNNING? || w.state.DEGRADED?) && v.state.RECOVERING?))
  }

  lemma DispatchMovesOnly(w: Workload, op: Op, minted: u64)
    requires op.OpAdmitDispatch? || op.OpWorkerLost? || op.OpEpisodeCompleted?
    ensures DispatchMoves(w, Apply(w, op, minted).w)
  {
    hide Guarded, TransitionOutcome, FindEpisode, CurrentEpisode;
    GuardedFrame();
    EpisodeEdges();
  }

  lemma ReportKeepsPhase(w: Workload, episode: u64, episodeGen: u64, delta: u64, durable: bool)
    requires Phase(w)
    ensures Phase(ReportProgress(w, episode, episodeGen, delta, durable).w)
  {
    hide IsTerminal, IsCancelling, Parked, Engaged;
  }

  lemma DispatchKeepsPhase(w: Workload, op: Op, minted: u64)
    requires Phase(w) && (op.OpAdmitDispatch? || op.OpWorkerLost? || op.OpEpisodeCompleted? || op.OpProgress?)
    ensures Phase(Apply(w, op, minted).w)
  {
    if op.OpProgress? {
      hide ReportProgress, Phase;
      ReportKeepsPhase(w, op.episode, op.episodeGen, op.delta, op.durable);
    } else {
      hide Apply, Relabelled;
      RelabelOnly(w, op, minted);
      DispatchMovesOnly(w, op, minted);
      RelabelledKeepsPhase(w.state, w.cancel, w.episodes, Apply(w, op, minted).w.episodes);
    }
  }

  lemma EndKeepsPhase(w: Workload, op: Op, minted: u64)
    requires Phase(w) && Handoff(w.episodes, w.progress) && (op.OpCompleteSuspend? || op.OpCommitCompletion?)
    ensures Phase(Apply(w, op, minted).w)
  {
    hide CompleteSuspend, CommitCompletion, CompletionEvidence;
    CompoundCalls();
  }

  lemma HandoverKeepsPhase(w: Workload, op: Op, minted: u64)
    requires Phase(w) && (op.OpStartEpisode? || op.OpCommitMigration?)
    ensures Phase(Apply(w, op, minted).w)
  {
    hide StartEpisode, CommitMigration;
    CompoundCalls();
  }

  /** Calls only rest in these states, cancelled-for-good workloads never run, completed ones have proof. */
  lemma StepKeepsPhase(w: Workload, op: Op, minted: u64)
    requires Phase(w) && Handoff(w.episodes, w.progress)
    ensures Phase(Apply(w, op, minted).w)
  {
    hide Apply;
    if !TouchesEpisodes(op) {
      ControlKeepsPhase(w, op, minted);
    } else if op.OpStartEpisode? || op.OpCommitMigration? {
      HandoverKeepsPhase(w, op, minted);
    } else if op.OpCompleteSuspend? || op.OpCommitCompletion? {
      EndKeepsPhase(w, op, minted);
    } else {
      DispatchKeepsPhase(w, op, minted);
    }
  }
}

/**
 * When each call is allowed, with which outcome it is refused, and the whole workload afterwards - in terms of
 * the last episode, literal states and literal log entries (src/workload.cpp).
 */
module Verdicts {
  import opened Basics
  import opened Vocabulary
  import opened ProgressModel
  import opened Model
  import opened Lifecycle
  import opened Numbers

  /** The transition is taken and logged; being there already logs nothing. */
  function Went(w: Workload, to: WorkloadState, reason: string): Workload {
    if w.state == to then w
    else w.(state := to, revision := Next(w.revision),
            history := w.history + [Record(w.state, to, w.generation, 0, Ascii(reason), ALLOW)])
  }

  /** The transition is refused and logged. */
  function Stayed(w: Workload, to: WorkloadState, reason: string, out: Outcome): Workload {
    w.(revision := Next(w.revision), history := w.history + [Record(w.state, to, w.generation, 0, Ascii(reason), out)])
  }

  function Last(w: Workload): nat
    requires w.episodes != []
  {
    |w.episodes| - 1
  }

  /** With authority where it belongs, the current episode is the last one. */
  lemma CurrentIsLast(w: Workload)
    requires Handoff(w.episodes, w.progress)
    ensures CurrentEpisode(w.episodes) == if w.episodes == [] then None else Some(|w.episodes| - 1)
  {
  }

  /** A new owner of authority appended behind the old ones. */
  function Succeeded(w: Workload, e: Episode): Workload {
    w.(episodes := seq(|w.episodes|, i requires 0 <= i < |w.episodes| => w.episodes[i].(authoritative := false)) + [e],
       generation := Next(w.generation))
  }

  // ---- Starting and dispatching ----------------------------------------------

  /** The checks of a start in their order, and the new episode, which continues from the workload's progress. */
  predicate StartAnswered(w: Workload, owner: u64, ownerGen: u64, minted: u64, s: Step) {
    var e := Episode(minted, 1, EP_ADMITTED, owner, ownerGen, 0, 0, Handle(0, 0, 0, []), Lineage(0, 0, 0, 0, 0, 0),
                     w.progress, w.ident.intent, true, false, false, false, false);
    if w.cancel.finished || w.state == CANCELLATION_REQUESTED || w.state == CANCELLING then s == Step(w, REJECT_CANCELLED)
    else if w.state == COMPLETED || w.state == FAILED_TERMINAL || w.state == CANCELLED || w.state == SUPERSEDED
    then s == Step(w, REJECT_TERMINAL)
    else if w.state == READY || w.state == RESTART_PENDING || w.state == SUSPENDED || w.state == PREEMPTED || w.state == RECOVERING
    then s == Step(Succeeded(Went(Went(w, READY, "resume eligible"), STARTING, "start episode"), e), ALLOW)
    else s == Step(w, REJECT_EPISODE_INELIGIBLE)
  }

  lemma Taken(w: Workload, to: WorkloadState, reason: string)
    requires w.state == to || (CanTransition(w.state, to) && !IsTerminal(w.state) && to != COMPLETED)
    ensures Guarded(w, to, w.generation, Ascii(reason)) == Step(Went(w, to, reason), ALLOW)
    ensures Went(w, to, reason).state == to && Went(w, to, reason).generation == w.generation
  {
  }

  lemma Already(w: Workload, to: WorkloadState, reason: string)
    ensures w.state == to ==> Went(w, to, reason) == w
  {
  }

  lemma NotTaken(w: Workload, to: WorkloadState, reason: string)
    requires w.state != to && !CanTransition(w.state, to) && !IsTerminal(w.state)
    ensures Guarded(w, to, w.generation, Ascii(reason)) ==
            Step(Stayed(w, to, reason, REJECT_INVALID_TRANSITION), REJECT_INVALID_TRANSITION)
  {
  }

  lemma TooLate(w: Workload, to: WorkloadState, reason: string)
    requires w.state != to && IsTerminal(w.state)
    ensures Guarded(w, to, w.generation, Ascii(reason)) == Step(Stayed(w, to, reason, REJECT_TERMINAL), REJECT_TERMINAL)
  {
  }

  /**
   * Every attempted transition, in full: fence, being there already, terminal states, the numbered edges of the
   * table, and the consent that completing untouched work needs. All but the second are logged.
   */
  lemma TransitionVerdict(w: Workload, to: WorkloadState, expecting: u64, reason: string)
    ensures var s := Guarded(w, to, expecting, Ascii(reason));
            if expecting != w.generation
            then s == Step(Stayed(w, to, reason, REJECT_STALE_WORKLOAD_GENERATION), REJECT_STALE_WORKLOAD_GENERATION)
            else if w.state == to then s == Step(w, ALLOW)
            else if StateNumber(w.state) in {21, 23, 24, 25} then s == Step(Stayed(w, to, reason, REJECT_TERMINAL), REJECT_TERMINAL)
            else if StateNumber(to) as int !in Successors(StateNumber(w.state))
            then s == Step(Stayed(w, to, reason, REJECT_INVALID_TRANSITION), REJECT_INVALID_TRANSITION)
            else if w.state == CREATED && to == COMPLETED && !w.policy.completion.allowZeroWorkCompletion
            then s == Step(Stayed(w, to, reason, REJECT_COMPLETION_POLICY), REJECT_COMPLETION_POLICY)
            else s == Step(Went(w, to, reason), ALLOW)
  {
    hide StateNumber, Successors, CanTransition, IsTerminal, BeforeAnyWork;
    TransitionsAreTheEdges(w.state, to);
    ClassesOfStates(w.state);
    CompletedFrom(w.state, to);
  }

  lemma CompletedFrom(s: WorkloadState, to: WorkloadState)
    ensures CanTransition(s, to) && to == COMPLETED ==> (BeforeAnyWork(s) <==> s == CREATED)
  {
  }

  lemma StartIsAnswered(w: Workload, owner: u64, ownerGen: u64, minted: u64)
    ensures StartAnswered(w, owner, ownerGen, minted, StartEpisode(w, minted, owner, ownerGen, true))
  {
    hide Guarded, Went;
    if ResumeEligible(w.state) {
      Taken(w, READY, "resume eligible");
      Taken(Went(w, READY, "resume eligible"), STARTING, "start episode");
      WentKeeps(w, READY, "resume eligible");
      WentKeeps(Went(w, READY, "resume eligible"), STARTING, "start episode");
    }
    hide CanTransition;
  }

  lemma WentKeeps(w: Workload, to: WorkloadState, reason: string)
    ensures var v := Went(w, to, reason); v == w.(state := to, revision := v.revision, history := v.history)
  {
  }

  /** A start: refused for good once cancelled, allowed from five states; it takes authority and generation over. */
  lemma StartVerdict(w: Workload, owner: u64, ownerGen: u64, minted: u64)
    ensures StartAnswered(w, owner, ownerGen, minted, Apply(w, OpStartEpisode(owner, ownerGen), minted))
  {
    hide StartEpisode, StartAnswered;
    StartIsAnswered(w, owner, ownerGen, minted);
  }

  /** The first episode with the id. */
  predicate FirstWithId(w: Workload, i: nat, id: u64) {
    i < |w.episodes| && w.episodes[i].id == id && forall j | 0 <= j < i :: w.episodes[j].id != id
  }

  predicate Unknown(w: Workload, id: u64) {
    forall j | 0 <= j < |w.episodes| :: w.episodes[j].id != id
  }

  lemma Found(w: Workload, i: nat, id: u64)
    ensures FirstWithId(w, i, id) ==> FindEpisode(w.episodes, id) == i
    ensures Unknown(w, id) ==> FindEpisode(w.episodes, id) == |w.episodes|
  {
  }

  /** A dispatch: only an admitted or preempted episode takes a worker, and a starting workload then runs. */
  lemma AdmitVerdict(w: Workload, i: nat, id: u64, worker: u64, boot: u64, minted: u64)
    requires FirstWithId(w, i, id)
    ensures var s, e := Apply(w, OpAdmitDispatch(id, worker, boot), minted), w.episodes[i];
            var v := w.(episodes := w.episodes[i := e.(worker := worker, boot := boot, state := EP_RUNNING)]);
            if e.state == EP_ADMITTED || e.state == EP_PREEMPTED
            then s == Step(if w.state == STARTING then Went(v, RUNNING, "dispatch") else v, ALLOW)
            else s == Step(w, REJECT_EPISODE_INELIGIBLE)
  {
    Found(w, i, id);
  }

  /** Calls in the name of no episode of the workload change nothing. */
  lemma UnknownEpisodeVerdict(w: Workload, id: u64, a: u64, b: u64, durable: bool, minted: u64)
    requires Unknown(w, id)
    ensures Apply(w, OpAdmitDispatch(id, a, b), minted) == Step(w, REJECT_EPISODE_INELIGIBLE)
    ensures Apply(w, OpProgress(id, a, b, durable), minted) == Step(w, REJECT_EPISODE_INELIGIBLE)
    ensures Apply(w, OpEpisodeCompleted(id), minted) == Step(w, REJECT_EPISODE_INELIGIBLE)
  {
    Found(w, 0, id);
  }

  lemma MarkVerdict(w: Workload, i: nat, id: u64, minted: u64)
    requires FirstWithId(w, i, id)
    ensures Apply(w, OpEpisodeCompleted(id), minted) ==
            Step(w.(episodes := w.episodes[i := w.episodes[i].(completed := true, state := EP_COMPLETED)]), ALLOW)
  {
    Found(w, i, id);
  }

  // ---- Progress --------------------------------------------------------------

  /** The counters of workload and episode after `delta` more units. */
  function Counted(p: Progress, delta: u64, durable: bool): Progress
    requires p.completed + delta < TWO64
  {
    Progress(p.completed + delta, p.totalKind, p.total, if durable then p.completed + delta else p.checkpointed,
             if durable then DURABLE_KNOWN else p.provenance, Next(p.lastAuthoritativeGeneration), p.monotonic)
  }

  /** The checks of a report in their order; the double-count test sees the sum modulo 2^64. */
  predicate ReportAnswered(w: Workload, i: nat, episodeGen: u64, delta: u64, durable: bool, s: Step)
    requires i < |w.episodes|
  {
    var sum := w.progress.completed + delta;
    if episodeGen != 1 then s == Step(w, REJECT_STALE_EPISODE)
    else if i != |w.episodes| - 1 then s == Step(w, REJECT_EPISODE_INELIGIBLE)
    else if w.cancel.finished || w.state == CANCELLATION_REQUESTED || w.state == CANCELLING then s == Step(w, REJECT_CANCELLED)
    else if w.state == COMPLETED || w.state == FAILED_TERMINAL || w.state == CANCELLED || w.state == SUPERSEDED
    then s == Step(w, REJECT_TERMINAL)
    else if w.progress.totalKind == TOTAL_KNOWN && sum % 0x1_0000_0000_0000_0000 > w.progress.total
    then s == Step(w, REJECT_PROGRESS_DOUBLE_COUNT)
    else if sum >= TWO64 then s == Step(w, REJECT_UNKNOWN)
    else
      var e := w.episodes[i];
      var own := e.progress.(completed := sum, checkpointed := if durable then sum else e.progress.checkpointed);
      s == Step(w.(progress := Counted(w.progress, delta, durable), episodes := w.episodes[i := e.(progress := own)]), ALLOW)
  }

  lemma ReportIsAnswered(w: Workload, i: nat, id: u64, episodeGen: u64, delta: u64, durable: bool)
    requires FirstWithId(w, i, id) && Handoff(w.episodes, w.progress)
    ensures ReportAnswered(w, i, episodeGen, delta, durable, ReportProgress(w, id, episodeGen, delta, durable))
  {
    hide FindEpisode, Handoff, FirstWithId, Next, Wrap;
    Found(w, i, id);
    IsFirst(w, i, id);
    Standing(w, i);
    Wrapped(w.progress.completed + delta);
  }

  lemma Wrapped(x: nat)
    ensures Wrap(x) == x % 0x1_0000_0000_0000_0000
    ensures x < TWO64 ==> Wrap(x) == x
  {
  }

  lemma IsFirst(w: Workload, i: nat, id: u64)
    requires FirstWithId(w, i, id)
    ensures i < |w.episodes| && w.episodes[i].id == id
  {
  }

  lemma Standing(w: Workload, i: nat)
    requires Handoff(w.episodes, w.progress) && i < |w.episodes|
    ensures w.episodes[i].generation == 1 && (w.episodes[i].authoritative <==> i == |w.episodes| - 1)
    ensures i == |w.episodes| - 1 ==> w.episodes[i].progress.completed == w.progress.completed
  {
  }

  /** An accepted report moves the counters of workload and last episode by its delta; every other changes nothing. */
  lemma ReportVerdict(w: Workload, i: nat, id: u64, episodeGen: u64, delta: u64, durable: bool, minted: u64)
    requires FirstWithId(w, i, id) && Handoff(w.episodes, w.progress)
    ensures ReportAnswered(w, i, episodeGen, delta, durable, Apply(w, OpProgress(id, episodeGen, delta, durable), minted))
  {
    hide ReportProgress, ReportAnswered;
    ReportIsAnswered(w, i, id, episodeGen, delta, durable);
  }

  // ---- Completion ------------------------------------------------------------

  /** What a completion leaves: the last episode is completed, a pending cancel is rejected, the count of commits moves. */
  function Committed(w: Workload): Workload {
    w.(episodes := if w.episodes == [] then [] else w.episodes[Last(w) := w.episodes[Last(w)].(completed := true)],
       cancel := Cancellation(false, w.cancel.finished, true), completionGen := Next(w.completionGen))
  }

  /** The evidence each of the four policies asks for. */
  predicate Earned(w: Workload) {
    var p := w.progress;
    && (w.policy.completion.kind == SINGLE_RESULT || w.policy.completion.kind == ALL_PHASES ==>
          w.episodes != [] && w.episodes[Last(w)].completed)
    && (w.policy.completion.kind == ALL_PHASES || w.policy.completion.kind == REQUIRED_UNITS ==>
          p.totalKind == TOTAL_KNOWN && p.completed >= p.total)
    && w.policy.completion.kind != EXPLICIT_FINALIZE
  }

  lemma EvidenceIs(w: Workload)
    requires Handoff(w.episodes, w.progress)
    ensures CompletionEvidence(w) <==> Earned(w)
    ensures CompletionMarked(w) == Committed(w)
  {
    hide CurrentEpisode, Handoff;
    CurrentIsLast(w);
  }

  lemma CommitWalks(w: Workload)
    requires CommitsFrom(w.state)
    ensures Then(Guarded(w, COMPLETING, w.generation, Ascii("completion criteria met")), COMPLETED, Ascii("workload completed")) ==
            Step(Went(Went(w, COMPLETING, "completion criteria met"), COMPLETED, "workload completed"), ALLOW)
  {
  }

  lemma CommitStays(w: Workload)
    requires !IsTerminal(w.state) && !CommitsFrom(w.state)
    ensures Then(Guarded(w, COMPLETING, w.generation, Ascii("completion criteria met")), COMPLETED, Ascii("workload completed")) ==
            Step(Stayed(w, COMPLETING, "completion criteria met", REJECT_INVALID_TRANSITION), REJECT_INVALID_TRANSITION)
  {
  }

  /**
   * The checks of a commit in their order: fence, terminal states, the race with a cancel, and the evidence of
   * the policy. Past them all it completes from four states, and from any other leaves its marks behind.
   */
  predicate CommitAnswered(w: Workload, expecting: u64, s: Step) {
    if expecting != w.generation then s == Step(w, REJECT_STALE_WORKLOAD_GENERATION)
    else if w.state == COMPLETED || w.state == FAILED_TERMINAL || w.state == CANCELLED || w.state == SUPERSEDED
    then s == Step(w, REJECT_TERMINAL)
    else if w.cancel.requested && w.policy.cancelRace == CANCEL_FIRST then s == Step(w, REJECT_CANCELLED)
    else if !Earned(w) then s == Step(w, REJECT_COMPLETION_POLICY)
    else if w.state == RUNNING || w.state == DEGRADED || w.state == CANCELLATION_REQUESTED || w.state == COMPLETING
    then s == Step(Went(Went(Committed(w), COMPLETING, "completion criteria met"), COMPLETED, "workload completed"), ALLOW)
    else s == Step(Stayed(Committed(w), COMPLETING, "completion criteria met", REJECT_INVALID_TRANSITION), REJECT_INVALID_TRANSITION)
  }

  lemma CommitIsAnswered(w: Workload, expecting: u64)
    requires Handoff(w.episodes, w.progress)
    ensures CommitAnswered(w, expecting, CommitCompletion(w, expecting))
  {
    hide Handoff, CompletionEvidence, CompletionMarked, Earned, Then, Guarded, Went, Stayed;
    EvidenceIs(w);
    if expecting == w.generation && !IsTerminal(w.state) {
      if CommitsFrom(w.state) {
        CommitWalks(Committed(w));
      } else {
        CommitStays(Committed(w));
      }
    }
  }

  /** A commit is answered as its policy, its evidence and its state say, with the whole workload afterwards. */
  lemma CommitVerdict(w: Workload, expecting: u64, minted: u64)
    requires Handoff(w.episodes, w.progress)
    ensures CommitAnswered(w, expecting, Apply(w, OpCommitCompletion(expecting), minted))
  {
    hide CommitCompletion, CommitAnswered, Handoff;
    CommitIsAnswered(w, expecting);
  }

  /** Policy by policy, exactly when a commit is allowed. */
  lemma CommitAllowedIff(w: Workload, expecting: u64, minted: u64)
    requires Handoff(w.episodes, w.progress)
    ensures var allowed, p := Apply(w, OpCommitCompletion(expecting), minted).out == ALLOW, w.progress;
            match w.policy.completion.kind
            case SINGLE_RESULT => allowed <==> Commits(w, expecting) && w.episodes != [] && w.episodes[Last(w)].completed
            case ALL_PHASES => allowed <==> Commits(w, expecting) && w.episodes != [] && w.episodes[Last(w)].completed
                                            && p.totalKind == TOTAL_KNOWN && p.completed >= p.total
            case REQUIRED_UNITS => allowed <==> Commits(w, expecting) && p.totalKind == TOTAL_KNOWN && p.completed >= p.total
            case EXPLICIT_FINALIZE => !allowed
  {
    hide Apply, Handoff;
    CommitVerdict(w, expecting, minted);
  }

  /** Current generation, no cancel that comes first, and a state that commits. */
  predicate Commits(w: Workload, expecting: u64) {
    && expecting == w.generation && !(w.cancel.requested && w.policy.cancelRace == CANCEL_FIRST)
    && (w.state == RUNNING || w.state == DEGRADED || w.state == CANCELLATION_REQUESTED || w.state == COMPLETING)
  }

  /** The same workload under a policy that names so many units, and an artifact or none. */
  function Asking(w: Workload, units: u32, artifact: bool): Workload {
    w.(policy := w.policy.(completion := w.policy.completion.(requiredUnits := units, requireDurableArtifact := artifact)))
  }

  /** The number of required units and the durable artifact that a policy names are never asked for. */
  lemma UnitsAndArtifactAreIgnored(w: Workload, units: u32, artifact: bool, expecting: u64)
    requires Handoff(w.episodes, w.progress)
    ensures CommitCompletion(Asking(w, units, artifact), expecting).out == CommitCompletion(w, expecting).out
  {
    hide CommitCompletion, Handoff, Went, Stayed;
    CommitIsAnswered(w, expecting);
    CommitIsAnswered(Asking(w, units, artifact), expecting);
  }

  lemma FinalizeVerdict(w: Workload, expecting: u64)
    ensures var s, v := Finalize(w, expecting), w.(completionGen := Next(w.completionGen));
            if expecting != w.generation then s == Step(w, REJECT_STALE_WORKLOAD_GENERATION)
            else if w.policy.completion.kind != EXPLICIT_FINALIZE then s == Step(w, REJECT_COMPLETION_POLICY)
            else if w.state == COMPLETED || w.state == FAILED_TERMINAL || w.state == CANCELLED || w.state == SUPERSEDED
            then s == Step(w, REJECT_TERMINAL)
            else if w.state == RUNNING || w.state == DEGRADED || w.state == CANCELLATION_REQUESTED || w.state == COMPLETING
            then s == Step(Went(Went(v, COMPLETING, "explicit finalize"), COMPLETED, "finalized"), ALLOW)
            else s == Step(Stayed(v, COMPLETING, "explicit finalize", REJECT_INVALID_TRANSITION), REJECT_INVALID_TRANSITION)
  {
  }

  // ---- Cancellation ----------------------------------------------------------

  /** The states from which cancellation can be requested: from the first start on, and not yet ending. */
  predicate Cancellable(s: WorkloadState) {
    s == STARTING || s == RUNNING || s == DEGRADED || s == SUSPEND_REQUESTED || s == SUSPENDING || s == SUSPENDED
    || s == PREEMPTION_REQUESTED || s == PREEMPTED || s == MIGRATION_PENDING || s == MIGRATING || s == RECOVERING || s == RESTART_PENDING
  }

  predicate CancelAnswered(w: Workload, expecting: u64, s: Step) {
    var v := w.(cancel := Cancellation(true, w.cancel.finished, w.cancel.wasRejected));
    if expecting != w.generation then s == Step(w, REJECT_STALE_WORKLOAD_GENERATION)
    else if w.state == COMPLETED || w.state == FAILED_TERMINAL || w.state == CANCELLED || w.state == SUPERSEDED
    then s == Step(w, REJECT_TERMINAL)
    else if w.state == CANCELLATION_REQUESTED || w.state == CANCELLING then s == Step(v, ALLOW)
    else if Cancellable(w.state) then s == Step(Went(v, CANCELLATION_REQUESTED, "cancellation requested"), ALLOW)
    else s == Step(Stayed(v, CANCELLATION_REQUESTED, "cancellation requested", REJECT_INVALID_TRANSITION), REJECT_INVALID_TRANSITION)
  }

  /** A cancel request is remembered whenever the workload is not terminal, also when its transition is refused. */
  lemma CancelVerdict(w: Workload, expecting: u64, minted: u64)
    ensures CancelAnswered(w, expecting, Apply(w, OpCancel(expecting), minted))
  {
  }

  predicate CancellationAnswered(w: Workload, expecting: u64, s: Step) {
    var v := w.(cancel := Cancellation(true, true, w.cancel.wasRejected));
    if expecting != w.generation then s == Step(w, REJECT_STALE_WORKLOAD_GENERATION)
    else if w.state == CANCELLED then s == Step(w.(cancel := w.cancel.(finished := true)), ALLOW)
    else if w.state == COMPLETED || w.state == FAILED_TERMINAL || w.state == SUPERSEDED then s == Step(w, REJECT_TERMINAL)
    else if Cancellable(w.state) || w.state == CANCELLATION_REQUESTED
    then s == Step(Went(Went(Went(v, CANCELLATION_REQUESTED, "cancelling"), CANCELLING, "cancelling"), CANCELLED, "cancelled"), ALLOW)
    else s == Step(Stayed(v, CANCELLATION_REQUESTED, "cancelling", REJECT_INVALID_TRANSITION), REJECT_INVALID_TRANSITION)
  }

  lemma CancellationWalks(w: Workload)
    requires Cancellable(w.state) || w.state == CANCELLATION_REQUESTED
    ensures Then(Then(Guarded(w, CANCELLATION_REQUESTED, w.generation, Ascii("cancelling")), CANCELLING, Ascii("cancelling")),
                 CANCELLED, Ascii("cancelled")) ==
            Step(Went(Went(Went(w, CANCELLATION_REQUESTED, "cancelling"), CANCELLING, "cancelling"), CANCELLED, "cancelled"), ALLOW)
  {
  }

  lemma CancellationStays(w: Workload)
    requires !IsTerminal(w.state) && !Cancellable(w.state) && w.state != CANCELLATION_REQUESTED
    ensures Then(Then(Guarded(w, CANCELLATION_REQUESTED, w.generation, Ascii("cancelling")), CANCELLING, Ascii("cancelling")),
                 CANCELLED, Ascii("cancelled")) ==
            Step(Stayed(w, CANCELLATION_REQUESTED, "cancelling", REJECT_INVALID_TRANSITION), REJECT_INVALID_TRANSITION)
  {
  }

  lemma CancellationIsAnswered(w: Workload, expecting: u64)
    ensures CancellationAnswered(w, expecting, CompleteCancellation(w, expecting))
  {
    hide Then, Guarded, Went, Stayed;
    var v := w.(cancel := Cancellation(true, true, w.cancel.wasRejected));
    if Cancellable(w.state) || w.state == CANCELLATION_REQUESTED {
      CancellationWalks(v);
    } else if !IsTerminal(w.state) {
      CancellationStays(v);
    }
    hide Cancellable;
  }

  /** Cancellation is final from then on whenever the workload is not terminal, also when its transition is refused. */
  lemma CancellationVerdict(w: Workload, expecting: u64, minted: u64)
    ensures CancellationAnswered(w, expecting, Apply(w, OpCompleteCancellation(expecting), minted))
  {
    hide CompleteCancellation, CancellationAnswered;
    CancellationIsAnswered(w, expecting);
  }

  // ---- Loss and restart ------------------------------------------------------

  predicate LossAnswered(w: Workload, worker: u64, boot: u64, expecting: u64, s: Step) {
    if expecting != w.generation then s == Step(w, REJECT_STALE_WORKLOAD_GENERATION)
    else if w.episodes == [] then s == Step(w, REJECT_EPISODE_INELIGIBLE)
    else
      var e := w.episodes[Last(w)];
      var v := w.(episodes := w.episodes[Last(w) := e.(workerLost := true, state := EP_LOST)]);
      if e.worker == worker && e.boot == boot
      then s == Step(if w.state == RUNNING || w.state == DEGRADED then Went(v, RECOVERING, "worker lost") else v, ALLOW)
      else s == Step(w, REJECT_STALE_BOOT)
  }

  lemma LossIsAnswered(w: Workload, worker: u64, boot: u64, expecting: u64)
    requires Handoff(w.episodes, w.progress)
    ensures LossAnswered(w, worker, boot, expecting, WorkerLost(w, worker, boot, expecting))
  {
    hide CurrentEpisode, Handoff;
    CurrentIsLast(w);
  }

  /** A loss is believed exactly when it names both the worker and the boot of the last episode; refused, it changes nothing. */
  lemma LossVerdict(w: Workload, worker: u64, boot: u64, expecting: u64, minted: u64)
    requires Handoff(w.episodes, w.progress)
    ensures LossAnswered(w, worker, boot, expecting, Apply(w, OpWorkerLost(worker, boot, expecting), minted))
  {
    hide WorkerLost, LossAnswered, Handoff;
    LossIsAnswered(w, worker, boot, expecting);
  }

  /** The reasons each kind of restart policy answers to. */
  predicate Answers(kind: RestartKind, reason: Bytes) {
    && kind != NEVER && kind != MANUAL_ONLY
    && (kind == ON_KNOWN_FAILURE ==> reason != Ascii("WORKER_LOSS"))
    && (kind == ON_WORKER_LOSS ==> reason == Ascii("WORKER_LOSS"))
    && (kind == ON_INFRASTRUCTURE_FAILURE ==> reason == Ascii("INFRASTRUCTURE_LOSS") || reason == Ascii("WORKER_LOSS"))
    && (kind == ON_AMBIGUOUS_EXECUTION ==> reason == Ascii("AMBIGUOUS_EXECUTION"))
  }

  /** One more restart, for this reason, of the last episode. */
  function Planned(w: Workload, reason: Bytes): Workload
    requires w.restarts.count < TWO32 - 1
  {
    w.(restarts := Restarts(w.restarts.count + 1, Next(w.restarts.gen), reason,
                            if w.episodes == [] then w.restarts.lastSource else w.episodes[Last(w)].id))
  }

  predicate RestartAnswered(w: Workload, reason: Bytes, expecting: u64, s: Step) {
    if expecting != w.generation then s == Step(w, REJECT_STALE_WORKLOAD_GENERATION)
    else if w.state == COMPLETED || w.state == FAILED_TERMINAL || w.state == CANCELLED || w.state == SUPERSEDED
    then s == Step(w, REJECT_TERMINAL)
    else if !Answers(w.policy.restart.kind, reason) || w.restarts.count >= w.policy.restart.maxRestarts
    then s == Step(w, REJECT_RESTART_LIMIT)
    else if w.state == RESTART_PENDING || w.state == STARTING || w.state == PREEMPTED || w.state == MIGRATING || w.state == RECOVERING
    then s == Step(Went(Planned(w, reason), RESTART_PENDING, "restart pending"), ALLOW)
    else s == Step(Stayed(Planned(w, reason), RESTART_PENDING, "restart pending", REJECT_INVALID_TRANSITION), REJECT_INVALID_TRANSITION)
  }

  lemma ReasonsAre(kind: RestartKind, reason: Bytes)
    ensures RestartClassAllowed(kind, reason) <==> Answers(kind, reason)
  {
  }

  lemma RestartIsAnswered(w: Workload, reason: Bytes, expecting: u64)
    requires Handoff(w.episodes, w.progress)
    ensures RestartAnswered(w, reason, expecting, PlanRestart(w, expecting, reason))
  {
    hide Handoff, CurrentEpisode, RestartClassAllowed, Answers, Guarded, Went, Stayed;
    ReasonsAre(w.policy.restart.kind, reason);
    CurrentIsLast(w);
    if w.restarts.count < w.policy.restart.maxRestarts && !IsTerminal(w.state) {
      if w.state == RESTART_PENDING || CanTransition(w.state, RESTART_PENDING) {
        Taken(Planned(w, reason), RESTART_PENDING, "restart pending");
        Already(Planned(w, reason), RESTART_PENDING, "restart pending");
      } else {
        NotTaken(Planned(w, reason), RESTART_PENDING, "restart pending");
      }
    }
  }

  /** A planned restart: kind by kind the reasons that count, the limit for every kind, and the slot a refused one still spends. */
  lemma RestartVerdict(w: Workload, reason: Bytes, expecting: u64, minted: u64)
    requires Handoff(w.episodes, w.progress)
    ensures RestartAnswered(w, reason, expecting, Apply(w, OpPlanRestart(reason, expecting), minted))
  {
    hide PlanRestart, RestartAnswered, Handoff;
    RestartIsAnswered(w, reason, expecting);
  }

  // ---- Suspension ------------------------------------------------------------

  predicate SuspendAnswered(w: Workload, expecting: u64, s: Step) {
    if expecting != w.generation then s == Step(w, REJECT_STALE_WORKLOAD_GENERATION)
    else if !w.policy.suspension.allowed then s == Step(w, REJECT_DEGRADED_POLICY)
    else if w.state == RUNNING || w.state == DEGRADED then s == Step(Went(w, SUSPEND_REQUESTED, "suspend requested"), ALLOW)
    else if w.state == STARTING
    then s == Step(Stayed(w, SUSPEND_REQUESTED, "suspend requested", REJECT_INVALID_TRANSITION), REJECT_INVALID_TRANSITION)
    else s == Step(w, REJECT_NOT_SUSPENDED)
  }

  /** A suspension is requested exactly from RUNNING and DEGRADED, when the policy allows it. */
  lemma SuspendVerdict(w: Workload, expecting: u64, minted: u64)
    ensures SuspendAnswered(w, expecting, Apply(w, OpRequestSuspend(expecting), minted))
  {
  }

  predicate QuiescedAnswered(w: Workload, expecting: u64, s: Step) {
    var v := if w.episodes == [] then w
             else w.(episodes := w.episodes[Last(w) := w.episodes[Last(w)].(state := EP_SUSPENDED, workerLost := false)]);
    if expecting != w.generation then s == Step(w, REJECT_STALE_WORKLOAD_GENERATION)
    else if w.state == SUSPENDED then s == Step(w, ALLOW)
    else if w.state == SUSPEND_REQUESTED then s == Step(Went(Went(v, SUSPENDING, "suspending"), SUSPENDED, "suspended"), ALLOW)
    else if w.state == SUSPENDING then s == Step(Went(v, SUSPENDED, "suspended"), ALLOW)
    else s == Step(w, REJECT_NOT_RESUMABLE)
  }

  lemma SuspensionIsAnswered(w: Workload, expecting: u64)
    requires Handoff(w.episodes, w.progress)
    ensures QuiescedAnswered(w, expecting, CompleteSuspend(w, expecting))
  {
    hide CurrentEpisode, Handoff;
    CurrentIsLast(w);
  }

  /** A suspension completes exactly when it was requested, and then the last episode rests. */
  lemma SuspensionVerdict(w: Workload, expecting: u64, minted: u64)
    requires Handoff(w.episodes, w.progress)
    ensures QuiescedAnswered(w, expecting, Apply(w, OpCompleteSuspend(expecting), minted))
  {
    hide CompleteSuspend, QuiescedAnswered, Handoff;
    SuspensionIsAnswered(w, expecting);
  }

  /** A resume leads a suspended or preempted workload back to READY, and is refused from every other state. */
  lemma ResumeVerdict(w: Workload, expecting: u64, minted: u64)
    ensures var s := Apply(w, OpRequestResume(expecting), minted);
            if expecting != w.generation then s == Step(w, REJECT_STALE_WORKLOAD_GENERATION)
            else if w.state == SUSPENDED || w.state == PREEMPTED then s == Step(Went(w, READY, "resume eligible"), ALLOW)
            else s == Step(w, REJECT_NOT_SUSPENDED)
  {
  }

  // ---- Migration -------------------------------------------------------------

  predicate MigrationRequestAnswered(w: Workload, expecting: u64, s: Step) {
    var v := w.(migrations := Migrations(Next(w.migrations.id), Next(w.migrations.gen), w.migrations.counter));
    if expecting != w.generation then s == Step(w, REJECT_STALE_WORKLOAD_GENERATION)
    else if w.policy.migration.eligibility == MIG_NONE then s == Step(w, REJECT_MIGRATION_INELIGIBLE)
    else if w.state == RUNNING || w.state == DEGRADED || w.state == MIGRATION_PENDING
    then s == Step(Went(v, MIGRATION_PENDING, "migration requested"), ALLOW)
    else if w.state == STARTING
    then s == Step(Stayed(v, MIGRATION_PENDING, "migration requested", REJECT_INVALID_TRANSITION), REJECT_INVALID_TRANSITION)
    else s == Step(w, REJECT_MIGRATION_INELIGIBLE)
  }

  lemma MigrationRequestIsAnswered(w: Workload, expecting: u64)
    ensures MigrationRequestAnswered(w, expecting, RequestMigration(w, expecting))
  {
  }

  /** A migration is requested exactly from RUNNING, DEGRADED and MIGRATION_PENDING; from STARTING it is refused and counted. */
  lemma MigrationRequestVerdict(w: Workload, expecting: u64, minted: u64)
    ensures MigrationRequestAnswered(w, expecting, Apply(w, OpRequestMigration(expecting), minted))
  {
    hide RequestMigration, MigrationRequestAnswered;
    MigrationRequestIsAnswered(w, expecting);
  }

  predicate MigrationAnswered(w: Workload, expecting: u64, worker: u64, boot: u64, s: Step) {
    var e := Episode(w.migrations.counter, 1, EP_RUNNING, w.ident.owner, w.ident.ownerGeneration, worker, boot,
                     Handle(0, 0, 0, []), Lineage(0, 0, 0, 0, 0, 0), w.progress, w.ident.intent, true, false, false, false, false);
    if expecting != w.generation then s == Step(w, REJECT_STALE_WORKLOAD_GENERATION)
    else if w.state == MIGRATION_PENDING || w.state == MIGRATING
    then
      var v := Went(w, MIGRATING, "migrating");
      var moved := Succeeded(v, e).(migrations := w.migrations.(counter := Next(w.migrations.counter)));
      s == Step(Went(moved, RUNNING, "migration committed"), ALLOW)
    else s == Step(w, REJECT_MIGRATION_INELIGIBLE)
  }

  lemma AdoptedIs(w: Workload, worker: u64, boot: u64)
    ensures var e := Episode(w.migrations.counter, 1, EP_RUNNING, w.ident.owner, w.ident.ownerGeneration, worker, boot,
                             Handle(0, 0, 0, []), Lineage(0, 0, 0, 0, 0, 0), w.progress, w.ident.intent, true, false, false, false, false);
            Adopted(w, worker, boot) == Succeeded(w, e).(migrations := w.migrations.(counter := Next(w.migrations.counter)))
  {
  }

  lemma MigrationIsAnswered(w: Workload, expecting: u64, worker: u64, boot: u64)
    ensures MigrationAnswered(w, expecting, worker, boot, CommitMigration(w, expecting, worker, boot))
  {
    hide Guarded, Went;
    if w.state == MIGRATION_PENDING || w.state == MIGRATING {
      Taken(w, MIGRATING, "migrating");
      WentKeeps(w, MIGRATING, "migrating");
      var v := Went(w, MIGRATING, "migrating");
      AdoptedIs(v, worker, boot);
      Taken(Adopted(v, worker, boot), RUNNING, "migration committed");
    }
    hide CanTransition, Adopted, Succeeded;
  }

  /** A migration commits exactly from MIGRATION_PENDING and MIGRATING: the new episode runs on the target and takes over. */
  lemma MigrationVerdict(w: Workload, expecting: u64, worker: u64, boot: u64, minted: u64)
    ensures MigrationAnswered(w, expecting, worker, boot, Apply(w, OpCommitMigration(expecting, worker, boot), minted))
  {
    hide CommitMigration, MigrationAnswered;
    MigrationIsAnswered(w, expecting, worker, boot);
  }
}

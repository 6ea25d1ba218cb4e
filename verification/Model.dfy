/** The durable workload as a value, and what each lifecycle call does to it (src/workload.cpp). */
module Model {
  import opened Basics
  import opened Vocabulary
  import opened ProgressModel
  import opened Dependencies
  import opened Resources

  datatype RestartPolicy = RestartPolicy(
    kind: RestartKind, maxRestarts: u32, maxRecoverySeconds: u32, carryProgressForward: bool, carryCheckpoint: bool)

  datatype CompletionPolicy = CompletionPolicy(
    kind: CompletionKind, requiredUnits: u32, requireDurableArtifact: bool, allowZeroWorkCompletion: bool)

  datatype MigrationPolicy = MigrationPolicy(
    eligibility: MigrationEligibility, requireCheckpoint: bool, requireQuiescence: bool, allowLossy: bool)

  datatype SuspensionPolicy = SuspensionPolicy(
    allowed: bool, requireDurableState: bool, maxSuspendedSeconds: u32, releaseResourcesWhileSuspended: bool)

  datatype Policy = Policy(
    restart: RestartPolicy, completion: CompletionPolicy, migration: MigrationPolicy,
    suspension: SuspensionPolicy, cancelRace: CancelRace, generation: u64)

  datatype Priority = Priority(
    cls: u64, generation: u64, baseTier: PriorityTier, baseValue: i32, promotion: i32,
    starved: bool, preemptible: bool, protectedFromPreemption: bool)

  const NO_PRIORITY: Priority := Priority(0, 0, NORMAL, 0, 0, false, true, false)

  datatype Handle = Handle(worker: u64, boot: u64, attemptGeneration: u64, intent: Bytes)

  const NO_HANDLE: Handle := Handle(0, 0, 0, [])

  /** Recovery links of an episode: carried and persisted, never read by the lifecycle. */
  datatype Lineage = Lineage(
    restartGeneration: u64, recoveryGeneration: u64, checkpoint: u64, checkpointGeneration: u64,
    migrationId: u64, migrationGeneration: u64)

  const NO_LINEAGE: Lineage := Lineage(0, 0, 0, 0, 0, 0)

  datatype Episode = Episode(
    id: u64, generation: u64, state: EpisodeState, owner: u64, ownerGeneration: u64, worker: u64, boot: u64,
    handle: Handle, lineage: Lineage, progress: Progress, intent: Bytes,
    authoritative: bool, failed: bool, cancelled: bool, completed: bool, workerLost: bool)

  datatype Record = Record(
    from: WorkloadState, to: WorkloadState, generation: u64, timestampMs: u64, reason: Bytes, outcome: Outcome)

  /** What no lifecycle call changes. */
  datatype Identity = Identity(
    id: u64, name: Bytes, intent: Bytes, priority: Priority, owner: u64, ownerGeneration: u64, epoch: u64)

  datatype Restarts = Restarts(count: u32, gen: u64, lastReason: Bytes, lastSource: u64)

  /** `counter` mints the ids of migrated episodes; it is the one field that is not persisted. */
  datatype Migrations = Migrations(id: u64, gen: u64, counter: u64)

  datatype Cancellation = Cancellation(requested: bool, finished: bool, wasRejected: bool)

  /** Every field of the aggregate. */
  datatype Workload = Workload(
    ident: Identity, generation: u64, revision: u64, state: WorkloadState, policy: Policy,
    contract: Contract, deps: Deps, progress: Progress,
    restarts: Restarts, migrations: Migrations, completionGen: u64, cancel: Cancellation,
    episodes: seq<Episode>, history: seq<Record>)

  const FIRST_MIGRATION_ID: u64 := 2000

  function Created(id: u64, name: Bytes, intent: Bytes, policy: Policy): Workload {
    Workload(Identity(id, name, intent, NO_PRIORITY, 0, 0, 1), 1, 1, CREATED, policy,
             NO_CONTRACT, NO_DEPS, NO_PROGRESS,
             Restarts(0, 0, [], 0), Migrations(0, 0, FIRST_MIGRATION_ID), 0, Cancellation(false, false, false), [], [])
  }

  datatype Step = Step(w: Workload, out: Outcome)

  // ---- Guarded transition --------------------------------------------------

  function Logged(w: Workload, from: WorkloadState, to: WorkloadState, reason: Bytes, out: Outcome): Workload {
    w.(history := w.history + [Record(from, to, w.generation, 0, reason, out)], revision := Next(w.revision))
  }

  predicate BeforeAnyWork(s: WorkloadState) {
    s.CREATED? || s.VALIDATING? || s.BLOCKED? || s.WAITING_FOR_DEPENDENCIES? || s.WAITING_FOR_RESOURCES?
  }

  function TransitionOutcome(w: Workload, to: WorkloadState, expecting: u64): Outcome {
    if expecting != w.generation then REJECT_STALE_WORKLOAD_GENERATION
    else if w.state == to then ALLOW
    else if IsTerminal(w.state) then REJECT_TERMINAL
    else if !CanTransition(w.state, to) then REJECT_INVALID_TRANSITION
    else if to.COMPLETED? && !w.policy.completion.allowZeroWorkCompletion && BeforeAnyWork(w.state) then REJECT_COMPLETION_POLICY
    else ALLOW
  }

  /** Every attempt is logged, except the one that finds the workload already there. */
  function Guarded(w: Workload, to: WorkloadState, expecting: u64, reason: Bytes): Step {
    var out := TransitionOutcome(w, to, expecting);
    if !out.ALLOW? then Step(Logged(w, w.state, to, reason, out), out)
    else if w.state == to then Step(w, ALLOW)
    else Step(Logged(w.(state := to), w.state, to, reason, ALLOW), ALLOW)
  }

  /** `b` is attempted from where `a` ended, and only when `a` was allowed. */
  function Then(a: Step, to: WorkloadState, reason: Bytes): Step {
    if a.out.ALLOW? then Guarded(a.w, to, a.w.generation, reason) else a
  }

  // ---- Episodes ------------------------------------------------------------

  /** First episode with this id, or the number of episodes when there is none. */
  function FindEpisode(es: seq<Episode>, id: u64): (i: nat)
    ensures i <= |es|
    ensures i < |es| ==> es[i].id == id
    ensures forall j | 0 <= j < i :: es[j].id != id
  {
    if es == [] || es[0].id == id then 0 else 1 + FindEpisode(es[1..], id)
  }

  /** First authoritative episode, else the last one; None without episodes. */
  function CurrentEpisode(es: seq<Episode>): (c: Option<nat>)
    ensures c.Some? ==> c.value < |es|
    ensures c.None? <==> es == []
  {
    if es == [] then None else Some(FirstAuthoritative(es))
  }

  function FirstAuthoritative(es: seq<Episode>): (i: nat)
    requires es != []
    ensures i < |es|
    ensures es[i].authoritative || i == |es| - 1
    ensures forall j | 0 <= j < i :: !es[j].authoritative
  {
    if es[0].authoritative || |es| == 1 then 0 else 1 + FirstAuthoritative(es[1..])
  }

  function Deauthorized(es: seq<Episode>): (r: seq<Episode>)
    ensures |r| == |es|
    ensures forall i | 0 <= i < |es| :: r[i] == es[i].(authoritative := false)
  {
    seq(|es|, i requires 0 <= i < |es| => es[i].(authoritative := false))
  }

  function AdmittedEpisode(w: Workload, id: u64, owner: u64, ownerGen: u64): Episode {
    Episode(id, 1, EP_ADMITTED, owner, ownerGen, 0, 0, NO_HANDLE, NO_LINEAGE, w.progress, w.ident.intent, true, false, false, false, false)
  }

  function MigratedEpisode(w: Workload, worker: u64, boot: u64): Episode {
    Episode(w.migrations.counter, 1, EP_RUNNING, w.ident.owner, w.ident.ownerGeneration, worker, boot,
            NO_HANDLE, NO_LINEAGE, w.progress, w.ident.intent, true, false, false, false, false)
  }

  /** The new episode takes over authority from every earlier one. */
  function HandedOver(w: Workload, target: Episode, advanceGeneration: bool): Workload {
    w.(episodes := Deauthorized(w.episodes) + [target],
       generation := if advanceGeneration then Next(w.generation) else w.generation)
  }

  // ---- Calls ---------------------------------------------------------------

  /** The next gate a workload waits at. */
  function Gate(w: Workload): WorkloadState {
    if !DepsReady(w.deps) then WAITING_FOR_DEPENDENCIES
    else if !Satisfied(w.contract) then WAITING_FOR_RESOURCES
    else READY
  }

  function Settle(w: Workload, expecting: u64): Step {
    var target := Gate(w);
    if expecting != w.generation then Step(w, REJECT_STALE_WORKLOAD_GENERATION)
    else if !target.READY? && (IsTerminal(w.state) || IsCancelling(w.state)) then Step(w, REJECT_TERMINAL)
    else if w.state == target then Step(w, ALLOW)
    else Guarded(w, target, expecting, Ascii("settle"))
  }

  function ExplainBlocked(w: Workload): Outcome {
    match Gate(w)
    case WAITING_FOR_DEPENDENCIES => BLOCKED_DEPENDENCY
    case WAITING_FOR_RESOURCES => BLOCKED_RESOURCE_CONTRACT
    case _ => ALLOW
  }

  predicate ResumeEligible(s: WorkloadState) {
    s.READY? || s.RESTART_PENDING? || s.SUSPENDED? || s.PREEMPTED? || s.RECOVERING?
  }

  function StartEpisode(w: Workload, id: u64, owner: u64, ownerGen: u64, advanceGeneration: bool): Step {
    if w.cancel.finished || IsCancelling(w.state) then Step(w, REJECT_CANCELLED)
    else if IsTerminal(w.state) then Step(w, REJECT_TERMINAL)
    else if !ResumeEligible(w.state) then Step(w, REJECT_EPISODE_INELIGIBLE)
    else
      var started := Then(Guarded(w, READY, w.generation, Ascii("resume eligible")), STARTING, Ascii("start episode"));
      if !started.out.ALLOW? then started
      else Step(HandedOver(started.w, AdmittedEpisode(started.w, id, owner, ownerGen), advanceGeneration), ALLOW)
  }

  function AdmitDispatch(w: Workload, episode: u64, worker: u64, boot: u64): Step {
    var i := FindEpisode(w.episodes, episode);
    if i == |w.episodes| then Step(w, REJECT_EPISODE_INELIGIBLE)
    else if !w.episodes[i].state.EP_ADMITTED? && !w.episodes[i].state.EP_PREEMPTED? then Step(w, REJECT_EPISODE_INELIGIBLE)
    else
      var v := w.(episodes := w.episodes[i := w.episodes[i].(worker := worker, boot := boot, state := EP_RUNNING)]);
      if v.state.STARTING? then Guarded(v, RUNNING, v.generation, Ascii("dispatch")) else Step(v, ALLOW)
  }

  /** An episode's own counters are a wrapping sum without the guard of the workload's. */
  function OwnProgress(p: Progress, delta: u64, durable: bool): Progress {
    var completed := Wrap(p.completed + delta);
    p.(completed := completed, checkpointed := if durable then completed else p.checkpointed)
  }

  /** Both the double-count test and the episode's own counter are 64-bit sums. */
  function ReportProgress(w: Workload, episode: u64, episodeGen: u64, delta: u64, durable: bool): Step {
    var i := FindEpisode(w.episodes, episode);
    if i == |w.episodes| then Step(w, REJECT_EPISODE_INELIGIBLE)
    else if episodeGen != w.episodes[i].generation then Step(w, REJECT_STALE_EPISODE)
    else if !w.episodes[i].authoritative then Step(w, REJECT_EPISODE_INELIGIBLE)
    else if w.cancel.finished || IsCancelling(w.state) then Step(w, REJECT_CANCELLED)
    else if IsTerminal(w.state) then Step(w, REJECT_TERMINAL)
    else if w.progress.totalKind.TOTAL_KNOWN? && Wrap(w.progress.completed + delta) > w.progress.total
    then Step(w, REJECT_PROGRESS_DOUBLE_COUNT)
    else
      var p := Advanced(w.progress, delta, durable);
      if p.None? then Step(w, REJECT_UNKNOWN)
      else
        var own := OwnProgress(w.episodes[i].progress, delta, durable);
        Step(w.(progress := p.value, episodes := w.episodes[i := w.episodes[i].(progress := own)]), ALLOW)
  }

  /** Whether the completion policy is met by what has been recorded. */
  predicate CompletionEvidence(w: Workload) {
    var cur := CurrentEpisode(w.episodes);
    match w.policy.completion.kind
    case SINGLE_RESULT => cur.Some? && w.episodes[cur.value].completed
    case ALL_PHASES => cur.Some? && w.episodes[cur.value].completed && Complete(w.progress)
    case REQUIRED_UNITS => Complete(w.progress)
    case EXPLICIT_FINALIZE => false
  }

  function WithCurrentCompleted(es: seq<Episode>): seq<Episode> {
    var cur := CurrentEpisode(es);
    if cur.None? then es else es[cur.value := es[cur.value].(completed := true)]
  }

  /** What a commit records before its transition is attempted. */
  function CompletionMarked(w: Workload): Workload {
    w.(episodes := WithCurrentCompleted(w.episodes),
       cancel := w.cancel.(requested := false, wasRejected := true), completionGen := Next(w.completionGen))
  }

  function CommitCompletion(w: Workload, expecting: u64): Step {
    if expecting != w.generation then Step(w, REJECT_STALE_WORKLOAD_GENERATION)
    else if IsTerminal(w.state) then Step(w, REJECT_TERMINAL)
    else if w.cancel.requested && w.policy.cancelRace.CANCEL_FIRST? then Step(w, REJECT_CANCELLED)
    else if !CompletionEvidence(w) then Step(w, REJECT_COMPLETION_POLICY)
    else
      Then(Guarded(CompletionMarked(w), COMPLETING, expecting, Ascii("completion criteria met")), COMPLETED, Ascii("workload completed"))
  }

  function Finalize(w: Workload, expecting: u64): Step {
    if expecting != w.generation then Step(w, REJECT_STALE_WORKLOAD_GENERATION)
    else if !w.policy.completion.kind.EXPLICIT_FINALIZE? then Step(w, REJECT_COMPLETION_POLICY)
    else if IsTerminal(w.state) then Step(w, REJECT_TERMINAL)
    else
      Then(Guarded(w.(completionGen := Next(w.completionGen)), COMPLETING, expecting, Ascii("explicit finalize")),
           COMPLETED, Ascii("finalized"))
  }

  function RequestCancellation(w: Workload, expecting: u64): Step {
    if expecting != w.generation then Step(w, REJECT_STALE_WORKLOAD_GENERATION)
    else if IsTerminal(w.state) then Step(w, REJECT_TERMINAL)
    else
      var v := w.(cancel := w.cancel.(requested := true));
      if IsCancelling(v.state) then Step(v, ALLOW)
      else Guarded(v, CANCELLATION_REQUESTED, expecting, Ascii("cancellation requested"))
  }

  function CompleteCancellation(w: Workload, expecting: u64): Step {
    if expecting != w.generation then Step(w, REJECT_STALE_WORKLOAD_GENERATION)
    else if w.state.CANCELLED? then Step(w.(cancel := w.cancel.(finished := true)), ALLOW)
    else if IsTerminal(w.state) then Step(w, REJECT_TERMINAL)
    else
      var v := w.(cancel := w.cancel.(finished := true, requested := true));
      Then(Then(Guarded(v, CANCELLATION_REQUESTED, expecting, Ascii("cancelling")),
                CANCELLING, Ascii("cancelling")), CANCELLED, Ascii("cancelled"))
  }

  function WorkerLost(w: Workload, worker: u64, boot: u64, expecting: u64): Step {
    var cur := CurrentEpisode(w.episodes);
    if expecting != w.generation then Step(w, REJECT_STALE_WORKLOAD_GENERATION)
    else if cur.None? then Step(w, REJECT_EPISODE_INELIGIBLE)
    else if w.episodes[cur.value].worker != worker || w.episodes[cur.value].boot != boot then Step(w, REJECT_STALE_BOOT)
    else
      var v := w.(episodes := w.episodes[cur.value := w.episodes[cur.value].(workerLost := true, state := EP_LOST)]);
      if v.state.RUNNING? || v.state.DEGRADED? then Guarded(v, RECOVERING, expecting, Ascii("worker lost")) else Step(v, ALLOW)
  }

  function MarkCompleted(w: Workload, episode: u64): Step {
    var i := FindEpisode(w.episodes, episode);
    if i == |w.episodes| then Step(w, REJECT_EPISODE_INELIGIBLE)
    else Step(w.(episodes := w.episodes[i := w.episodes[i].(completed := true, state := EP_COMPLETED)]), ALLOW)
  }

  predicate RestartClassAllowed(kind: RestartKind, reason: Bytes) {
    match kind
    case ALWAYS_WITH_LIMIT => true
    case ON_KNOWN_FAILURE => reason != Ascii("WORKER_LOSS")
    case ON_WORKER_LOSS => reason == Ascii("WORKER_LOSS")
    case ON_INFRASTRUCTURE_FAILURE => reason == Ascii("INFRASTRUCTURE_LOSS") || reason == Ascii("WORKER_LOSS")
    case ON_AMBIGUOUS_EXECUTION => reason == Ascii("AMBIGUOUS_EXECUTION")
    case NEVER => false
    case MANUAL_ONLY => false
  }

  predicate RestartAllowed(count: u32, maxRestarts: u32) {
    count < maxRestarts
  }

  function LastSource(w: Workload): u64 {
    var cur := CurrentEpisode(w.episodes);
    if cur.Some? then w.episodes[cur.value].id else w.restarts.lastSource
  }

  function SlotSpent(w: Workload, reason: Bytes): Workload
    requires w.restarts.count < TWO32 - 1
  {
    w.(restarts := Restarts(w.restarts.count + 1, Next(w.restarts.gen), reason, LastSource(w)))
  }

  /** The slot is spent before the edge is checked. */
  function PlanRestart(w: Workload, expecting: u64, reason: Bytes): Step {
    var rp := w.policy.restart;
    if expecting != w.generation then Step(w, REJECT_STALE_WORKLOAD_GENERATION)
    else if IsTerminal(w.state) then Step(w, REJECT_TERMINAL)
    else if !RestartClassAllowed(rp.kind, reason) || !RestartAllowed(w.restarts.count, rp.maxRestarts) then Step(w, REJECT_RESTART_LIMIT)
    else
      var v := SlotSpent(w, reason);
      if v.state.RESTART_PENDING? then Step(v, ALLOW) else Guarded(v, RESTART_PENDING, expecting, Ascii("restart pending"))
  }

  function RequestSuspend(w: Workload, expecting: u64): Step {
    if expecting != w.generation then Step(w, REJECT_STALE_WORKLOAD_GENERATION)
    else if !w.policy.suspension.allowed then Step(w, REJECT_DEGRADED_POLICY)
    else if !IsActivelyRunning(w.state) then Step(w, REJECT_NOT_SUSPENDED)
    else Guarded(w, SUSPEND_REQUESTED, expecting, Ascii("suspend requested"))
  }

  function Quiesced(w: Workload): Workload {
    var cur := CurrentEpisode(w.episodes);
    if cur.None? then w
    else w.(episodes := w.episodes[cur.value := w.episodes[cur.value].(state := EP_SUSPENDED, workerLost := false)])
  }

  function CompleteSuspend(w: Workload, expecting: u64): Step {
    if expecting != w.generation then Step(w, REJECT_STALE_WORKLOAD_GENERATION)
    else if w.state.SUSPENDED? then Step(w, ALLOW)
    else if !w.state.SUSPEND_REQUESTED? && !w.state.SUSPENDING? then Step(w, REJECT_NOT_RESUMABLE)
    else
      var v := Quiesced(w);
      if v.state.SUSPEND_REQUESTED?
      then Then(Guarded(v, SUSPENDING, expecting, Ascii("suspending")), SUSPENDED, Ascii("suspended"))
      else Guarded(v, SUSPENDED, expecting, Ascii("suspended"))
  }

  function RequestResume(w: Workload, expecting: u64): Step {
    if expecting != w.generation then Step(w, REJECT_STALE_WORKLOAD_GENERATION)
    else if !w.state.SUSPENDED? && !w.state.PREEMPTED? then Step(w, REJECT_NOT_SUSPENDED)
    else Guarded(w, READY, expecting, Ascii("resume eligible"))
  }

  function MigrationCounted(w: Workload): Workload {
    w.(migrations := w.migrations.(id := Wrap(w.migrations.id + 1), gen := Next(w.migrations.gen)))
  }

  function RequestMigration(w: Workload, expecting: u64): Step {
    if expecting != w.generation then Step(w, REJECT_STALE_WORKLOAD_GENERATION)
    else if w.policy.migration.eligibility.MIG_NONE? then Step(w, REJECT_MIGRATION_INELIGIBLE)
    else if !IsActivelyRunning(w.state) && !w.state.MIGRATION_PENDING? then Step(w, REJECT_MIGRATION_INELIGIBLE)
    else
      var v := MigrationCounted(w);
      if v.state.MIGRATION_PENDING? then Step(v, ALLOW)
      else Guarded(v, MIGRATION_PENDING, expecting, Ascii("migration requested"))
  }

  function Adopted(w: Workload, targetWorker: u64, targetBoot: u64): Workload {
    HandedOver(w.(migrations := w.migrations.(counter := Wrap(w.migrations.counter + 1))),
               MigratedEpisode(w, targetWorker, targetBoot), true)
  }

  function CommitMigration(w: Workload, expecting: u64, targetWorker: u64, targetBoot: u64): Step {
    if expecting != w.generation then Step(w, REJECT_STALE_WORKLOAD_GENERATION)
    else if !w.state.MIGRATION_PENDING? && !w.state.MIGRATING? then Step(w, REJECT_MIGRATION_INELIGIBLE)
    else
      var a := Guarded(w, MIGRATING, expecting, Ascii("migrating"));
      if !a.out.ALLOW? then a
      else
        var v := Adopted(a.w, targetWorker, targetBoot);
        Guarded(v, RUNNING, v.generation, Ascii("migration committed"))
  }

  // ---- One step ------------------------------------------------------------

  /** A call on one workload, as the engine forwards it. */
  datatype Op =
    | OpValidate
    | OpSetPolicy(policy: Policy)
    | OpAddDependency(def: DependencyDef)
    | OpSetDependencyStatus(index: nat, status: DependencyStatus, observed: u64)
    | OpAddRequirement(req: Requirement)
    | OpApplyGrant(grant: Grant)
    | OpSettle
    | OpStartEpisode(owner: u64, ownerGen: u64)
    | OpAdmitDispatch(episode: u64, worker: u64, boot: u64)
    | OpProgress(episode: u64, episodeGen: u64, delta: u64, durable: bool)
    | OpEpisodeCompleted(episode: u64)
    | OpCommitCompletion(expecting: u64)
    | OpWorkerLost(worker: u64, boot: u64, expecting: u64)
    | OpPlanRestart(reason: Bytes, expecting: u64)
    | OpRequestSuspend(expecting: u64)
    | OpCompleteSuspend(expecting: u64)
    | OpRequestResume(expecting: u64)
    | OpRequestMigration(expecting: u64)
    | OpCommitMigration(expecting: u64, worker: u64, boot: u64)
    | OpCancel(expecting: u64)
    | OpCompleteCancellation(expecting: u64)
    | OpDeclareTotal(kind: TotalKind, total: u64)

  /** What one call does; `minted` is the episode id the engine would use. */
  function Apply(w: Workload, op: Op, minted: u64): Step {
    match op
    case OpValidate => Guarded(w, VALIDATING, w.generation, Ascii("validate"))
    case OpSetPolicy(policy) => Step(w.(policy := policy), ALLOW)
    case OpAddDependency(def) => Step(w.(deps := Defined(w.deps, def)), ALLOW)
    case OpSetDependencyStatus(index, status, observed) =>
      var r := Report(index, status, observed);
      Step(w.(deps := w.deps.(states := Reported(w.deps.states, r))), ReportOutcome(w.deps.states, r))
    case OpAddRequirement(req) => Step(w.(contract := WithRequirement(w.contract, req)), AddOutcome(w.contract, req))
    case OpApplyGrant(grant) => Step(w.(contract := WithGrant(w.contract, grant)), ALLOW)
    case OpSettle => Settle(w, w.generation)
    case OpStartEpisode(owner, ownerGen) => StartEpisode(w, minted, owner, ownerGen, true)
    case OpAdmitDispatch(episode, worker, boot) => AdmitDispatch(w, episode, worker, boot)
    case OpProgress(episode, episodeGen, delta, durable) => ReportProgress(w, episode, episodeGen, delta, durable)
    case OpEpisodeCompleted(episode) => MarkCompleted(w, episode)
    case OpCommitCompletion(expecting) => CommitCompletion(w, expecting)
    case OpWorkerLost(worker, boot, expecting) => WorkerLost(w, worker, boot, expecting)
    case OpPlanRestart(reason, expecting) => PlanRestart(w, expecting, reason)
    case OpRequestSuspend(expecting) => RequestSuspend(w, expecting)
    case OpCompleteSuspend(expecting) => CompleteSuspend(w, expecting)
    case OpRequestResume(expecting) => RequestResume(w, expecting)
    case OpRequestMigration(expecting) => RequestMigration(w, expecting)
    case OpCommitMigration(expecting, worker, boot) => CommitMigration(w, expecting, worker, boot)
    case OpCancel(expecting) => RequestCancellation(w, expecting)
    case OpCompleteCancellation(expecting) => CompleteCancellation(w, expecting)
    case OpDeclareTotal(kind, total) => Step(w.(progress := w.progress.(totalKind := kind, total := total)), ALLOW)
  }
}

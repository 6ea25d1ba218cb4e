/**
 * The payload of a record: what each part writes, and how it is read back (src/persistence.cpp).
 * `PutX(x, k)` is what the writer appends for `x`, followed by the bytes `k` of what comes after it.
 */
module Codec {
  import opened Basics
  import opened Vocabulary
  import opened ProgressModel
  import opened Dependencies
  import opened Resources
  import opened Model
  import opened Binary

  // ---- Policy --------------------------------------------------------------

  function PutRestartPolicy(p: RestartPolicy, k: Bytes): Bytes {
    PutEnum(ALL_RESTART_KINDS, p.kind, PutU32(p.maxRestarts, PutU32(p.maxRecoverySeconds,
    PutBool(p.carryProgressForward, PutBool(p.carryCheckpoint, k)))))
  }

  function GetRestartPolicy(s: Bytes): Res<RestartPolicy> {
    var (kind, s) :- GetEnum(ALL_RESTART_KINDS, s);
    var (maxRestarts, s) :- GetU32(s);
    var (maxRecoverySeconds, s) :- GetU32(s);
    var (carryProgressForward, s) :- GetBool(s);
    var (carryCheckpoint, s) :- GetBool(s);
    Ok(RestartPolicy(kind, maxRestarts, maxRecoverySeconds, carryProgressForward, carryCheckpoint), s)
  }

  function PutCompletionPolicy(p: CompletionPolicy, k: Bytes): Bytes {
    PutEnum(ALL_COMPLETION_KINDS, p.kind, PutU32(p.requiredUnits,
    PutBool(p.requireDurableArtifact, PutBool(p.allowZeroWorkCompletion, k))))
  }

  function GetCompletionPolicy(s: Bytes): Res<CompletionPolicy> {
    var (kind, s) :- GetEnum(ALL_COMPLETION_KINDS, s);
    var (requiredUnits, s) :- GetU32(s);
    var (requireDurableArtifact, s) :- GetBool(s);
    var (allowZeroWorkCompletion, s) :- GetBool(s);
    Ok(CompletionPolicy(kind, requiredUnits, requireDurableArtifact, allowZeroWorkCompletion), s)
  }

  function PutMigrationPolicy(p: MigrationPolicy, k: Bytes): Bytes {
    PutEnum(ALL_MIGRATION_ELIGIBILITIES, p.eligibility, PutBool(p.requireCheckpoint,
    PutBool(p.requireQuiescence, PutBool(p.allowLossy, k))))
  }

  function GetMigrationPolicy(s: Bytes): Res<MigrationPolicy> {
    var (eligibility, s) :- GetEnum(ALL_MIGRATION_ELIGIBILITIES, s);
    var (requireCheckpoint, s) :- GetBool(s);
    var (requireQuiescence, s) :- GetBool(s);
    var (allowLossy, s) :- GetBool(s);
    Ok(MigrationPolicy(eligibility, requireCheckpoint, requireQuiescence, allowLossy), s)
  }

  function PutSuspensionPolicy(p: SuspensionPolicy, k: Bytes): Bytes {
    PutBool(p.allowed, PutBool(p.requireDurableState, PutU32(p.maxSuspendedSeconds,
    PutBool(p.releaseResourcesWhileSuspended, k))))
  }

  function GetSuspensionPolicy(s: Bytes): Res<SuspensionPolicy> {
    var (allowed, s) :- GetBool(s);
    var (requireDurableState, s) :- GetBool(s);
    var (maxSuspendedSeconds, s) :- GetU32(s);
    var (releaseResources, s) :- GetBool(s);
    Ok(SuspensionPolicy(allowed, requireDurableState, maxSuspendedSeconds, releaseResources), s)
  }

  function PutPolicy(p: Policy, k: Bytes): Bytes {
    PutRestartPolicy(p.restart, PutCompletionPolicy(p.completion, PutMigrationPolicy(p.migration,
    PutSuspensionPolicy(p.suspension, PutEnum(ALL_CANCEL_RACES, p.cancelRace, PutU64(p.generation, k))))))
  }

  function GetPolicy(s: Bytes): Res<Policy> {
    var (restart, s) :- GetRestartPolicy(s);
    var (completion, s) :- GetCompletionPolicy(s);
    var (migration, s) :- GetMigrationPolicy(s);
    var (suspension, s) :- GetSuspensionPolicy(s);
    var (cancelRace, s) :- GetEnum(ALL_CANCEL_RACES, s);
    var (generation, s) :- GetU64(s);
    Ok(Policy(restart, completion, migration, suspension, cancelRace, generation), s)
  }

  // ---- Resource contract ---------------------------------------------------

  /** The amounts a decoder accepts in a requirement. */
  predicate GoodRequirement(r: Requirement) {
    IsFinite(r.minValue) && IsFinite(r.maxValue) && !F64Less(r.minValue, F64_ZERO)
  }

  function PutRequirement(r: Requirement, k: Bytes): Bytes {
    PutEnum(ALL_RESOURCE_KINDS, r.kind, PutEnum(ALL_NEED_LEVELS, r.level,
    PutU64(r.minValue, PutU64(r.maxValue, PutStr(r.spec, k)))))
  }

  function GetRequirement(s: Bytes): Res<Requirement> {
    var (kind, s) :- GetEnum(ALL_RESOURCE_KINDS, s);
    var (level, s) :- GetEnum(ALL_NEED_LEVELS, s);
    var (minValue, s) :- GetU64(s);
    var (maxValue, s) :- GetU64(s);
    if !IsFinite(minValue) || !IsFinite(maxValue) || F64Less(minValue, F64_ZERO) then Reject
    else
      var (spec, s) :- GetStr(s);
      Ok(Requirement(kind, level, minValue, maxValue, spec), s)
  }

  predicate GoodBinding(b: Binding) {
    IsFinite(b.amount) && !F64Less(b.amount, F64_ZERO)
  }

  function PutBinding(b: Binding, k: Bytes): Bytes {
    PutEnum(ALL_RESOURCE_KINDS, b.kind, PutU64(b.amount, PutStr(b.qualifier, k)))
  }

  function GetBinding(s: Bytes): Res<Binding> {
    var (kind, s) :- GetEnum(ALL_RESOURCE_KINDS, s);
    var (amount, s) :- GetU64(s);
    if !IsFinite(amount) || F64Less(amount, F64_ZERO) then Reject
    else
      var (qualifier, s) :- GetStr(s);
      Ok(Binding(kind, amount, qualifier), s)
  }

  /** A count is written in 32 bits. */
  function PutCount(n: nat, k: Bytes): Bytes {
    PutU32(n % 0x1_0000_0000, k)
  }

  function PutGrant(g: Grant, k: Bytes): Bytes {
    PutU64(g.contractId, PutU64(g.contractGeneration, PutEnum(ALL_GRANT_STATUSES, g.status,
    PutBool(g.released, PutCount(|g.bindings|, PutMany(PutBinding, g.bindings, k))))))
  }

  function GetGrant(s: Bytes): Res<Grant> {
    var (contractId, s) :- GetU64(s);
    var (contractGeneration, s) :- GetU64(s);
    var (status, s) :- GetEnum(ALL_GRANT_STATUSES, s);
    var (released, s) :- GetBool(s);
    var (n, s) :- GetU32(s);
    var (bindings, s) :- GetMany(GetBinding, n, s);
    Ok(Grant(contractId, contractGeneration, status, released, bindings), s)
  }

  function PutContract(c: Contract, k: Bytes): Bytes {
    PutU64(c.id, PutU64(c.generation, PutCount(|c.reqs|, PutMany(PutRequirement, c.reqs, PutGrant(c.grant, k)))))
  }

  function GetContract(s: Bytes): Res<Contract> {
    var (id, s) :- GetU64(s);
    var (generation, s) :- GetU64(s);
    var (n, s) :- GetU32(s);
    var (reqs, s) :- GetMany(GetRequirement, n, s);
    var (grant, s) :- GetGrant(s);
    Ok(Contract(id, generation, reqs, grant), s)
  }

  // ---- Dependencies --------------------------------------------------------

  function PutDef(d: DependencyDef, k: Bytes): Bytes {
    PutU64(d.dependsOn, PutEnum(ALL_DEPENDENCY_REQUIREMENTS, d.requirement,
    PutEnum(ALL_DEPENDENCY_READY, d.readyWhen, PutStr(d.artifactKey, k))))
  }

  function GetDef(s: Bytes): Res<DependencyDef> {
    var (dependsOn, s) :- GetU64(s);
    var (requirement, s) :- GetEnum(ALL_DEPENDENCY_REQUIREMENTS, s);
    var (readyWhen, s) :- GetEnum(ALL_DEPENDENCY_READY, s);
    var (artifactKey, s) :- GetStr(s);
    Ok(DependencyDef(dependsOn, requirement, readyWhen, artifactKey), s)
  }

  function PutState(d: DependencyState, k: Bytes): Bytes {
    PutEnum(ALL_DEPENDENCY_STATUSES, d.status, PutU64(d.observed, PutStr(d.detail, k)))
  }

  function GetState(s: Bytes): Res<DependencyState> {
    var (status, s) :- GetEnum(ALL_DEPENDENCY_STATUSES, s);
    var (observed, s) :- GetU64(s);
    var (detail, s) :- GetStr(s);
    Ok(DependencyState(status, observed, detail), s)
  }

  function PutDeps(d: Deps, k: Bytes): Bytes {
    PutU64(d.id, PutU64(d.generation, PutCount(|d.defs|, PutMany(PutDef, d.defs,
    PutCount(|d.states|, PutMany(PutState, d.states, k))))))
  }

  /**
   * States are stored one by one at their index into the `nd` fresh ones: fewer leave the rest fresh, one
   * more is read and then overruns the vector.
   */
  function GetStates(nd: u32, ns: u32, s: Bytes): Res<seq<DependencyState>> {
    var (states, s) :- GetMany(GetState, if ns <= nd then ns else nd + 1, s);
    if ns > nd then Escape else Ok(states + seq(nd - ns, _ => FRESH_STATE), s)
  }

  function GetDeps(s: Bytes): Res<Deps> {
    var (id, s) :- GetU64(s);
    var (generation, s) :- GetU64(s);
    var (nd, s) :- GetU32(s);
    var (defs, s) :- GetMany(GetDef, nd, s);
    var (ns, s) :- GetU32(s);
    var (states, s) :- GetStates(nd, ns, s);
    Ok(Deps(id, generation, defs, states), s)
  }

  // ---- Priority and progress -----------------------------------------------

  function PutPriority(p: Priority, k: Bytes): Bytes {
    PutU64(p.cls, PutU64(p.generation, PutEnum(ALL_PRIORITY_TIERS, p.baseTier,
    PutU64(I32ToU64(p.baseValue), PutU64(I32ToU64(p.promotion),
    PutBool(p.starved, PutBool(p.preemptible, PutBool(p.protectedFromPreemption, k))))))))
  }

  function GetPriority(s: Bytes): Res<Priority> {
    var (cls, s) :- GetU64(s);
    var (generation, s) :- GetU64(s);
    var (baseTier, s) :- GetEnum(ALL_PRIORITY_TIERS, s);
    var (baseValue, s) :- GetU64(s);
    var (promotion, s) :- GetU64(s);
    var (starved, s) :- GetBool(s);
    var (preemptible, s) :- GetBool(s);
    var (protectedFromPreemption, s) :- GetBool(s);
    Ok(Priority(cls, generation, baseTier, U64ToI32(baseValue), U64ToI32(promotion),
                starved, preemptible, protectedFromPreemption), s)
  }

  function PutProgress(p: Progress, k: Bytes): Bytes {
    PutU64(p.completed, PutEnum(ALL_TOTAL_KINDS, p.totalKind, PutU64(p.total, PutU64(p.checkpointed,
    PutEnum(ALL_PROVENANCES, p.provenance, PutU64(p.lastAuthoritativeGeneration, PutBool(p.monotonic, k)))))))
  }

  function GetProgress(s: Bytes): Res<Progress> {
    var (completed, s) :- GetU64(s);
    var (totalKind, s) :- GetEnum(ALL_TOTAL_KINDS, s);
    var (total, s) :- GetU64(s);
    var (checkpointed, s) :- GetU64(s);
    var (provenance, s) :- GetEnum(ALL_PROVENANCES, s);
    var (lastAuthoritativeGeneration, s) :- GetU64(s);
    var (monotonic, s) :- GetBool(s);
    Ok(Progress(completed, totalKind, total, checkpointed, provenance, lastAuthoritativeGeneration, monotonic), s)
  }

  // ---- Episodes and history ------------------------------------------------

  datatype EpisodeHead = EpisodeHead(
    id: u64, generation: u64, state: EpisodeState, owner: u64, ownerGeneration: u64, worker: u64, boot: u64)

  function PutEpisodeHead(e: EpisodeHead, k: Bytes): Bytes {
    PutU64(e.id, PutU64(e.generation, PutEnum(ALL_EPISODE_STATES, e.state, PutU64(e.owner,
    PutU64(e.ownerGeneration, PutU64(e.worker, PutU64(e.boot, k)))))))
  }

  function GetEpisodeHead(s: Bytes): Res<EpisodeHead> {
    var (id, s) :- GetU64(s);
    var (generation, s) :- GetU64(s);
    var (state, s) :- GetEnum(ALL_EPISODE_STATES, s);
    var (owner, s) :- GetU64(s);
    var (ownerGeneration, s) :- GetU64(s);
    var (worker, s) :- GetU64(s);
    var (boot, s) :- GetU64(s);
    Ok(EpisodeHead(id, generation, state, owner, ownerGeneration, worker, boot), s)
  }

  function PutHandle(h: Handle, k: Bytes): Bytes {
    PutU64(h.worker, PutU64(h.boot, PutU64(h.attemptGeneration, PutStr(h.intent, k))))
  }

  function GetHandle(s: Bytes): Res<Handle> {
    var (worker, s) :- GetU64(s);
    var (boot, s) :- GetU64(s);
    var (attemptGeneration, s) :- GetU64(s);
    var (intent, s) :- GetStr(s);
    Ok(Handle(worker, boot, attemptGeneration, intent), s)
  }

  function PutLineage(l: Lineage, k: Bytes): Bytes {
    PutU64(l.restartGeneration, PutU64(l.recoveryGeneration, PutU64(l.checkpoint, PutU64(l.checkpointGeneration,
    PutU64(l.migrationId, PutU64(l.migrationGeneration, k))))))
  }

  function GetLineage(s: Bytes): Res<Lineage> {
    var (restartGeneration, s) :- GetU64(s);
    var (recoveryGeneration, s) :- GetU64(s);
    var (checkpoint, s) :- GetU64(s);
    var (checkpointGeneration, s) :- GetU64(s);
    var (migrationId, s) :- GetU64(s);
    var (migrationGeneration, s) :- GetU64(s);
    Ok(Lineage(restartGeneration, recoveryGeneration, checkpoint, checkpointGeneration, migrationId, migrationGeneration), s)
  }

  datatype EpisodeTail = EpisodeTail(
    intent: Bytes, authoritative: bool, failed: bool, cancelled: bool, completed: bool, workerLost: bool)

  function PutEpisodeTail(e: EpisodeTail, k: Bytes): Bytes {
    PutStr(e.intent, PutBool(e.authoritative, PutBool(e.failed, PutBool(e.cancelled,
    PutBool(e.completed, PutBool(e.workerLost, k))))))
  }

  function GetEpisodeTail(s: Bytes): Res<EpisodeTail> {
    var (intent, s) :- GetStr(s);
    var (authoritative, s) :- GetBool(s);
    var (failed, s) :- GetBool(s);
    var (cancelled, s) :- GetBool(s);
    var (completed, s) :- GetBool(s);
    var (workerLost, s) :- GetBool(s);
    Ok(EpisodeTail(intent, authoritative, failed, cancelled, completed, workerLost), s)
  }

  function HeadOf(e: Episode): EpisodeHead {
    EpisodeHead(e.id, e.generation, e.state, e.owner, e.ownerGeneration, e.worker, e.boot)
  }

  function TailOf(e: Episode): EpisodeTail {
    EpisodeTail(e.intent, e.authoritative, e.failed, e.cancelled, e.completed, e.workerLost)
  }

  function EpisodeOf(h: EpisodeHead, handle: Handle, lineage: Lineage, progress: Progress, t: EpisodeTail): Episode {
    Episode(h.id, h.generation, h.state, h.owner, h.ownerGeneration, h.worker, h.boot, handle, lineage, progress,
            t.intent, t.authoritative, t.failed, t.cancelled, t.completed, t.workerLost)
  }

  function PutEpisode(e: Episode, k: Bytes): Bytes {
    PutEpisodeHead(HeadOf(e), PutHandle(e.handle, PutLineage(e.lineage, PutProgress(e.progress, PutEpisodeTail(TailOf(e), k)))))
  }

  function GetEpisode(s: Bytes): Res<Episode> {
    var (head, s) :- GetEpisodeHead(s);
    var (handle, s) :- GetHandle(s);
    var (lineage, s) :- GetLineage(s);
    var (progress, s) :- GetProgress(s);
    var (tail, s) :- GetEpisodeTail(s);
    Ok(EpisodeOf(head, handle, lineage, progress, tail), s)
  }

  function PutRecord(r: Record, k: Bytes): Bytes {
    PutEnum(ALL_WORKLOAD_STATES, r.from, PutEnum(ALL_WORKLOAD_STATES, r.to, PutU64(r.generation,
    PutU64(r.timestampMs, PutStr(r.reason, PutEnum(ALL_OUTCOMES, r.outcome, k))))))
  }

  function GetRecord(s: Bytes): Res<Record> {
    var (from, s) :- GetEnum(ALL_WORKLOAD_STATES, s);
    var (to, s) :- GetEnum(ALL_WORKLOAD_STATES, s);
    var (generation, s) :- GetU64(s);
    var (timestampMs, s) :- GetU64(s);
    var (reason, s) :- GetStr(s);
    var (outcome, s) :- GetEnum(ALL_OUTCOMES, s);
    Ok(Record(from, to, generation, timestampMs, reason, outcome), s)
  }

  // ---- The whole payload ---------------------------------------------------

  datatype Header = Header(id: u64, generation: u64, revision: u64, state: WorkloadState, name: Bytes, intent: Bytes)

  function PutHeader(h: Header, k: Bytes): Bytes {
    PutU64(h.id, PutU64(h.generation, PutU64(h.revision, PutEnum(ALL_WORKLOAD_STATES, h.state,
    PutStr(h.name, PutStr(h.intent, k))))))
  }

  function GetHeader(s: Bytes): Res<Header> {
    var (id, s) :- GetU64(s);
    var (generation, s) :- GetU64(s);
    var (revision, s) :- GetU64(s);
    var (state, s) :- GetEnum(ALL_WORKLOAD_STATES, s);
    var (name, s) :- GetStr(s);
    var (intent, s) :- GetStr(s);
    Ok(Header(id, generation, revision, state, name, intent), s)
  }

  datatype Counters = Counters(
    owner: u64, ownerGeneration: u64, epoch: u64, restartCount: u32, restartGen: u64,
    migrationId: u64, migrationGen: u64, completionGen: u64)

  function PutCounters(c: Counters, k: Bytes): Bytes {
    PutU64(c.owner, PutU64(c.ownerGeneration, PutU64(c.epoch, PutU32(c.restartCount, PutU64(c.restartGen,
    PutU64(c.migrationId, PutU64(c.migrationGen, PutU64(c.completionGen, k))))))))
  }

  function GetCounters(s: Bytes): Res<Counters> {
    var (owner, s) :- GetU64(s);
    var (ownerGeneration, s) :- GetU64(s);
    var (epoch, s) :- GetU64(s);
    var (restartCount, s) :- GetU32(s);
    var (restartGen, s) :- GetU64(s);
    var (migrationId, s) :- GetU64(s);
    var (migrationGen, s) :- GetU64(s);
    var (completionGen, s) :- GetU64(s);
    Ok(Counters(owner, ownerGeneration, epoch, restartCount, restartGen, migrationId, migrationGen, completionGen), s)
  }

  datatype Marks = Marks(cancel: Cancellation, lastReason: Bytes, lastSource: u64)

  function PutMarks(m: Marks, k: Bytes): Bytes {
    PutBool(m.cancel.requested, PutBool(m.cancel.finished, PutBool(m.cancel.wasRejected,
    PutStr(m.lastReason, PutU64(m.lastSource, k)))))
  }

  function GetMarks(s: Bytes): Res<Marks> {
    var (requested, s) :- GetBool(s);
    var (finished, s) :- GetBool(s);
    var (wasRejected, s) :- GetBool(s);
    var (lastReason, s) :- GetStr(s);
    var (lastSource, s) :- GetU64(s);
    Ok(Marks(Cancellation(requested, finished, wasRejected), lastReason, lastSource), s)
  }

  /** The payload up to the scalar bookkeeping. */
  datatype Front = Front(header: Header, policy: Policy, contract: Contract, deps: Deps, priority: Priority)

  function PutFront(f: Front, k: Bytes): Bytes {
    PutHeader(f.header, PutPolicy(f.policy, PutContract(f.contract, PutDeps(f.deps, PutPriority(f.priority, k)))))
  }

  function GetFront(s: Bytes): Res<Front> {
    var (header, s) :- GetHeader(s);
    var (policy, s) :- GetPolicy(s);
    var (contract, s) :- GetContract(s);
    var (deps, s) :- GetDeps(s);
    var (priority, s) :- GetPriority(s);
    Ok(Front(header, policy, contract, deps, priority), s)
  }

  datatype Rear = Rear(progress: Progress, counters: Counters, marks: Marks, episodes: seq<Episode>, history: seq<Record>)

  function PutRear(r: Rear, k: Bytes): Bytes {
    PutProgress(r.progress, PutCounters(r.counters, PutMarks(r.marks,
    PutCount(|r.episodes|, PutMany(PutEpisode, r.episodes,
    PutCount(|r.history|, PutMany(PutRecord, r.history, k)))))))
  }

  function GetRear(s: Bytes): Res<Rear> {
    var (progress, s) :- GetProgress(s);
    var (counters, s) :- GetCounters(s);
    var (marks, s) :- GetMarks(s);
    var (ne, s) :- GetU32(s);
    var (episodes, s) :- GetMany(GetEpisode, ne, s);
    var (nh, s) :- GetU32(s);
    var (history, s) :- GetMany(GetRecord, nh, s);
    Ok(Rear(progress, counters, marks, episodes, history), s)
  }

  function FrontOf(w: Workload): Front {
    Front(Header(w.ident.id, w.generation, w.revision, w.state, w.ident.name, w.ident.intent),
          w.policy, w.contract, w.deps, w.ident.priority)
  }

  function RearOf(w: Workload): Rear {
    Rear(w.progress,
         Counters(w.ident.owner, w.ident.ownerGeneration, w.ident.epoch, w.restarts.count, w.restarts.gen,
                  w.migrations.id, w.migrations.gen, w.completionGen),
         Marks(w.cancel, w.restarts.lastReason, w.restarts.lastSource), w.episodes, w.history)
  }

  /** A decoded workload; the counter of migration ids starts over, because it is not in the record. */
  function WorkloadOf(f: Front, r: Rear): Workload {
    var h, c, m := f.header, r.counters, r.marks;
    Workload(Identity(h.id, h.name, h.intent, f.priority, c.owner, c.ownerGeneration, c.epoch),
             h.generation, h.revision, h.state, f.policy, f.contract, f.deps, r.progress,
             Restarts(c.restartCount, c.restartGen, m.lastReason, m.lastSource),
             Migrations(c.migrationId, c.migrationGen, FIRST_MIGRATION_ID), c.completionGen, m.cancel,
             r.episodes, r.history)
  }

  /** What a record keeps of a workload. */
  function Persisted(w: Workload): Workload {
    w.(migrations := w.migrations.(counter := FIRST_MIGRATION_ID))
  }

  function Payload(w: Workload): Bytes {
    PutFront(FrontOf(w), PutRear(RearOf(w), []))
  }

  function GetFields(s: Bytes): Res<Workload> {
    var (front, s) :- GetFront(s);
    var (rear, s) :- GetRear(s);
    Ok(WorkloadOf(front, rear), s)
  }

  /** Trailing bytes, an invalid id and zero generations are rejected. */
  function DecodePayload(payload: Bytes): Res<Workload> {
    var (w, s) :- GetFields(payload);
    if s != [] then Reject
    else if w.ident.id == 0 || w.generation == 0 || w.revision == 0 then Reject
    else Ok(w, [])
  }
}

/** How a workload is appended to a writer, part by part (src/persistence.cpp). */
module Encoding {
  import opened Basics
  import opened Vocabulary
  import opened ProgressModel
  import opened Dependencies
  import opened Resources
  import opened Model
  import opened Binary
  import opened Streams
  import opened Codec

  lemma ManyFirst<T>(put: (T, Bytes) -> Bytes, xs: seq<T>, i: nat)
    requires i < |xs|
    ensures forall k {:trigger PutMany(put, xs[i + 1..], k)} ::
              PutMany(put, xs[i..], k) == put(xs[i], PutMany(put, xs[i + 1..], k))
  {
    assert xs[i..][1..] == xs[i + 1..];
  }

  method WriteRestartPolicy(w: Writer, p: RestartPolicy)
    modifies w
    ensures forall k {:trigger w.buf + k} :: w.buf + k == old(w.buf) + PutRestartPolicy(p, k)
  {
    hide PutEnum, PutU32, PutBool;
    w.Enum(ALL_RESTART_KINDS, p.kind);
    w.U32(p.maxRestarts);
    w.U32(p.maxRecoverySeconds);
    w.Bool(p.carryProgressForward);
    w.Bool(p.carryCheckpoint);
  }

  method WriteCompletionPolicy(w: Writer, p: CompletionPolicy)
    modifies w
    ensures forall k {:trigger w.buf + k} :: w.buf + k == old(w.buf) + PutCompletionPolicy(p, k)
  {
    hide PutEnum, PutU32, PutBool;
    w.Enum(ALL_COMPLETION_KINDS, p.kind);
    w.U32(p.requiredUnits);
    w.Bool(p.requireDurableArtifact);
    w.Bool(p.allowZeroWorkCompletion);
  }

  method WriteMigrationPolicy(w: Writer, p: MigrationPolicy)
    modifies w
    ensures forall k {:trigger w.buf + k} :: w.buf + k == old(w.buf) + PutMigrationPolicy(p, k)
  {
    hide PutEnum, PutBool;
    w.Enum(ALL_MIGRATION_ELIGIBILITIES, p.eligibility);
    w.Bool(p.requireCheckpoint);
    w.Bool(p.requireQuiescence);
    w.Bool(p.allowLossy);
  }

  method WriteSuspensionPolicy(w: Writer, p: SuspensionPolicy)
    modifies w
    ensures forall k {:trigger w.buf + k} :: w.buf + k == old(w.buf) + PutSuspensionPolicy(p, k)
  {
    hide PutU32, PutBool;
    w.Bool(p.allowed);
    w.Bool(p.requireDurableState);
    w.U32(p.maxSuspendedSeconds);
    w.Bool(p.releaseResourcesWhileSuspended);
  }

  method WritePolicy(w: Writer, p: Policy)
    modifies w
    ensures forall k {:trigger w.buf + k} :: w.buf + k == old(w.buf) + PutPolicy(p, k)
  {
    hide PutEnum, PutU64, PutRestartPolicy, PutCompletionPolicy, PutMigrationPolicy, PutSuspensionPolicy;
    WriteRestartPolicy(w, p.restart);
    WriteCompletionPolicy(w, p.completion);
    WriteMigrationPolicy(w, p.migration);
    WriteSuspensionPolicy(w, p.suspension);
    w.Enum(ALL_CANCEL_RACES, p.cancelRace);
    w.U64(p.generation);
  }

  method WriteRequirement(w: Writer, r: Requirement)
    modifies w
    ensures forall k {:trigger w.buf + k} :: w.buf + k == old(w.buf) + PutRequirement(r, k)
  {
    hide PutEnum, PutU64, PutStr;
    w.Enum(ALL_RESOURCE_KINDS, r.kind);
    w.Enum(ALL_NEED_LEVELS, r.level);
    w.U64(r.minValue);
    w.U64(r.maxValue);
    w.Str(r.spec);
  }

  method WriteRequirements(w: Writer, xs: seq<Requirement>)
    modifies w
    ensures forall k {:trigger w.buf + k} :: w.buf + k == old(w.buf) + PutMany(PutRequirement, xs, k)
  {
    hide PutRequirement;
    ghost var start := w.buf;
    var i := 0;
    assert xs[0..] == xs;
    while i < |xs|
      invariant 0 <= i <= |xs|
      invariant forall k {:trigger PutMany(PutRequirement, xs, k)} ::
                w.buf + PutMany(PutRequirement, xs[i..], k) == start + PutMany(PutRequirement, xs, k)
    {
      WriteRequirement(w, xs[i]);
      ManyFirst(PutRequirement, xs, i);
      i := i + 1;
    }
    assert xs[i..] == [];
  }

  method WriteBinding(w: Writer, b: Binding)
    modifies w
    ensures forall k {:trigger w.buf + k} :: w.buf + k == old(w.buf) + PutBinding(b, k)
  {
    hide PutEnum, PutU64, PutStr;
    w.Enum(ALL_RESOURCE_KINDS, b.kind);
    w.U64(b.amount);
    w.Str(b.qualifier);
  }

  method WriteBindings(w: Writer, xs: seq<Binding>)
    modifies w
    ensures forall k {:trigger w.buf + k} :: w.buf + k == old(w.buf) + PutMany(PutBinding, xs, k)
  {
    hide PutBinding;
    ghost var start := w.buf;
    var i := 0;
    assert xs[0..] == xs;
    while i < |xs|
      invariant 0 <= i <= |xs|
      invariant forall k {:trigger PutMany(PutBinding, xs, k)} ::
                w.buf + PutMany(PutBinding, xs[i..], k) == start + PutMany(PutBinding, xs, k)
    {
      WriteBinding(w, xs[i]);
      ManyFirst(PutBinding, xs, i);
      i := i + 1;
    }
    assert xs[i..] == [];
  }

  method WriteGrant(w: Writer, g: Grant)
    modifies w
    ensures forall k {:trigger w.buf + k} :: w.buf + k == old(w.buf) + PutGrant(g, k)
  {
    hide PutEnum, PutU32, PutU64, PutBool, PutMany, PutBinding;
    w.U64(g.contractId);
    w.U64(g.contractGeneration);
    w.Enum(ALL_GRANT_STATUSES, g.status);
    w.Bool(g.released);
    w.U32(|g.bindings| % 0x1_0000_0000);
    WriteBindings(w, g.bindings);
  }

  method WriteContract(w: Writer, c: Contract)
    modifies w
    ensures forall k {:trigger w.buf + k} :: w.buf + k == old(w.buf) + PutContract(c, k)
  {
    hide PutU32, PutU64, PutMany, PutRequirement, PutGrant;
    w.U64(c.id);
    w.U64(c.generation);
    w.U32(|c.reqs| % 0x1_0000_0000);
    WriteRequirements(w, c.reqs);
    WriteGrant(w, c.grant);
  }

  method WriteDef(w: Writer, d: DependencyDef)
    modifies w
    ensures forall k {:trigger w.buf + k} :: w.buf + k == old(w.buf) + PutDef(d, k)
  {
    hide PutEnum, PutU64, PutStr;
    w.U64(d.dependsOn);
    w.Enum(ALL_DEPENDENCY_REQUIREMENTS, d.requirement);
    w.Enum(ALL_DEPENDENCY_READY, d.readyWhen);
    w.Str(d.artifactKey);
  }

  method WriteDefinitions(w: Writer, xs: seq<DependencyDef>)
    modifies w
    ensures forall k {:trigger w.buf + k} :: w.buf + k == old(w.buf) + PutMany(PutDef, xs, k)
  {
    hide PutDef;
    ghost var start := w.buf;
    var i := 0;
    assert xs[0..] == xs;
    while i < |xs|
      invariant 0 <= i <= |xs|
      invariant forall k {:trigger PutMany(PutDef, xs, k)} ::
                w.buf + PutMany(PutDef, xs[i..], k) == start + PutMany(PutDef, xs, k)
    {
      WriteDef(w, xs[i]);
      ManyFirst(PutDef, xs, i);
      i := i + 1;
    }
    assert xs[i..] == [];
  }

  method WriteState(w: Writer, d: DependencyState)
    modifies w
    ensures forall k {:trigger w.buf + k} :: w.buf + k == old(w.buf) + PutState(d, k)
  {
    hide PutEnum, PutU64, PutStr;
    w.Enum(ALL_DEPENDENCY_STATUSES, d.status);
    w.U64(d.observed);
    w.Str(d.detail);
  }

  method WriteStates(w: Writer, xs: seq<DependencyState>)
    modifies w
    ensures forall k {:trigger w.buf + k} :: w.buf + k == old(w.buf) + PutMany(PutState, xs, k)
  {
    hide PutState;
    ghost var start := w.buf;
    var i := 0;
    assert xs[0..] == xs;
    while i < |xs|
      invariant 0 <= i <= |xs|
      invariant forall k {:trigger PutMany(PutState, xs, k)} ::
                w.buf + PutMany(PutState, xs[i..], k) == start + PutMany(PutState, xs, k)
    {
      WriteState(w, xs[i]);
      ManyFirst(PutState, xs, i);
      i := i + 1;
    }
    assert xs[i..] == [];
  }

  method WriteDeps(w: Writer, d: Deps)
    modifies w
    ensures forall k {:trigger w.buf + k} :: w.buf + k == old(w.buf) + PutDeps(d, k)
  {
    hide PutU32, PutU64, PutMany, PutDef, PutState;
    w.U64(d.id);
    w.U64(d.generation);
    w.U32(|d.defs| % 0x1_0000_0000);
    WriteDefinitions(w, d.defs);
    w.U32(|d.states| % 0x1_0000_0000);
    WriteStates(w, d.states);
  }

  method WritePriority(w: Writer, p: Priority)
    modifies w
    ensures forall k {:trigger w.buf + k} :: w.buf + k == old(w.buf) + PutPriority(p, k)
  {
    hide PutEnum, PutU64, PutBool;
    w.U64(p.cls);
    w.U64(p.generation);
    w.Enum(ALL_PRIORITY_TIERS, p.baseTier);
    w.U64(I32ToU64(p.baseValue));
    w.U64(I32ToU64(p.promotion));
    w.Bool(p.starved);
    w.Bool(p.preemptible);
    w.Bool(p.protectedFromPreemption);
  }

  method WriteProgress(w: Writer, p: Progress)
    modifies w
    ensures forall k {:trigger w.buf + k} :: w.buf + k == old(w.buf) + PutProgress(p, k)
  {
    hide PutEnum, PutU64, PutBool;
    w.U64(p.completed);
    w.Enum(ALL_TOTAL_KINDS, p.totalKind);
    w.U64(p.total);
    w.U64(p.checkpointed);
    w.Enum(ALL_PROVENANCES, p.provenance);
    w.U64(p.lastAuthoritativeGeneration);
    w.Bool(p.monotonic);
  }

  method WriteEpisodeHead(w: Writer, e: EpisodeHead)
    modifies w
    ensures forall k {:trigger w.buf + k} :: w.buf + k == old(w.buf) + PutEpisodeHead(e, k)
  {
    hide PutEnum, PutU64;
    w.U64(e.id);
    w.U64(e.generation);
    w.Enum(ALL_EPISODE_STATES, e.state);
    w.U64(e.owner);
    w.U64(e.ownerGeneration);
    w.U64(e.worker);
    w.U64(e.boot);
  }

  method WriteHandle(w: Writer, h: Handle)
    modifies w
    ensures forall k {:trigger w.buf + k} :: w.buf + k == old(w.buf) + PutHandle(h, k)
  {
    hide PutU64, PutStr;
    w.U64(h.worker);
    w.U64(h.boot);
    w.U64(h.attemptGeneration);
    w.Str(h.intent);
  }

  method WriteLineage(w: Writer, l: Lineage)
    modifies w
    ensures forall k {:trigger w.buf + k} :: w.buf + k == old(w.buf) + PutLineage(l, k)
  {
    hide PutU64;
    w.U64(l.restartGeneration);
    w.U64(l.recoveryGeneration);
    w.U64(l.checkpoint);
    w.U64(l.checkpointGeneration);
    w.U64(l.migrationId);
    w.U64(l.migrationGeneration);
  }

  method WriteEpisodeTail(w: Writer, e: EpisodeTail)
    modifies w
    ensures forall k {:trigger w.buf + k} :: w.buf + k == old(w.buf) + PutEpisodeTail(e, k)
  {
    hide PutBool, PutStr;
    w.Str(e.intent);
    w.Bool(e.authoritative);
    w.Bool(e.failed);
    w.Bool(e.cancelled);
    w.Bool(e.completed);
    w.Bool(e.workerLost);
  }

  method WriteEpisode(w: Writer, e: Episode)
    modifies w
    ensures forall k {:trigger w.buf + k} :: w.buf + k == old(w.buf) + PutEpisode(e, k)
  {
    hide PutEpisodeHead, PutHandle, PutLineage, PutProgress, PutEpisodeTail;
    WriteEpisodeHead(w, HeadOf(e));
    WriteHandle(w, e.handle);
    WriteLineage(w, e.lineage);
    WriteProgress(w, e.progress);
    WriteEpisodeTail(w, TailOf(e));
  }

  method WriteEpisodes(w: Writer, xs: seq<Episode>)
    modifies w
    ensures forall k {:trigger w.buf + k} :: w.buf + k == old(w.buf) + PutMany(PutEpisode, xs, k)
  {
    hide PutEpisode;
    ghost var start := w.buf;
    var i := 0;
    assert xs[0..] == xs;
    while i < |xs|
      invariant 0 <= i <= |xs|
      invariant forall k {:trigger PutMany(PutEpisode, xs, k)} ::
                w.buf + PutMany(PutEpisode, xs[i..], k) == start + PutMany(PutEpisode, xs, k)
    {
      WriteEpisode(w, xs[i]);
      ManyFirst(PutEpisode, xs, i);
      i := i + 1;
    }
    assert xs[i..] == [];
  }

  method WriteRecord(w: Writer, r: Record)
    modifies w
    ensures forall k {:trigger w.buf + k} :: w.buf + k == old(w.buf) + PutRecord(r, k)
  {
    hide PutEnum, PutU64, PutStr;
    w.Enum(ALL_WORKLOAD_STATES, r.from);
    w.Enum(ALL_WORKLOAD_STATES, r.to);
    w.U64(r.generation);
    w.U64(r.timestampMs);
    w.Str(r.reason);
    w.Enum(ALL_OUTCOMES, r.outcome);
  }

  method WriteRecords(w: Writer, xs: seq<Record>)
    modifies w
    ensures forall k {:trigger w.buf + k} :: w.buf + k == old(w.buf) + PutMany(PutRecord, xs, k)
  {
    hide PutRecord;
    ghost var start := w.buf;
    var i := 0;
    assert xs[0..] == xs;
    while i < |xs|
      invariant 0 <= i <= |xs|
      invariant forall k {:trigger PutMany(PutRecord, xs, k)} ::
                w.buf + PutMany(PutRecord, xs[i..], k) == start + PutMany(PutRecord, xs, k)
    {
      WriteRecord(w, xs[i]);
      ManyFirst(PutRecord, xs, i);
      i := i + 1;
    }
    assert xs[i..] == [];
  }

  method WriteHeader(w: Writer, h: Header)
    modifies w
    ensures forall k {:trigger w.buf + k} :: w.buf + k == old(w.buf) + PutHeader(h, k)
  {
    hide PutEnum, PutU64, PutStr;
    w.U64(h.id);
    w.U64(h.generation);
    w.U64(h.revision);
    w.Enum(ALL_WORKLOAD_STATES, h.state);
    w.Str(h.name);
    w.Str(h.intent);
  }

  method WriteCounters(w: Writer, c: Counters)
    modifies w
    ensures forall k {:trigger w.buf + k} :: w.buf + k == old(w.buf) + PutCounters(c, k)
  {
    hide PutU32, PutU64;
    w.U64(c.owner);
    w.U64(c.ownerGeneration);
    w.U64(c.epoch);
    w.U32(c.restartCount);
    w.U64(c.restartGen);
    w.U64(c.migrationId);
    w.U64(c.migrationGen);
    w.U64(c.completionGen);
  }

  method WriteMarks(w: Writer, m: Marks)
    modifies w
    ensures forall k {:trigger w.buf + k} :: w.buf + k == old(w.buf) + PutMarks(m, k)
  {
    hide PutU64, PutBool, PutStr;
    w.Bool(m.cancel.requested);
    w.Bool(m.cancel.finished);
    w.Bool(m.cancel.wasRejected);
    w.Str(m.lastReason);
    w.U64(m.lastSource);
  }

  method WriteFront(w: Writer, f: Front)
    modifies w
    ensures forall k {:trigger w.buf + k} :: w.buf + k == old(w.buf) + PutFront(f, k)
  {
    hide PutHeader, PutPolicy, PutContract, PutDeps, PutPriority;
    WriteHeader(w, f.header);
    WritePolicy(w, f.policy);
    WriteContract(w, f.contract);
    WriteDeps(w, f.deps);
    WritePriority(w, f.priority);
  }

  method WriteRear(w: Writer, r: Rear)
    modifies w
    ensures forall k {:trigger w.buf + k} :: w.buf + k == old(w.buf) + PutRear(r, k)
  {
    hide PutU32, PutProgress, PutCounters, PutMarks, PutMany, PutEpisode, PutRecord;
    WriteProgress(w, r.progress);
    WriteCounters(w, r.counters);
    WriteMarks(w, r.marks);
    w.U32(|r.episodes| % 0x1_0000_0000);
    WriteEpisodes(w, r.episodes);
    w.U32(|r.history| % 0x1_0000_0000);
    WriteRecords(w, r.history);
  }
}

/** How a workload is read back, part by part and list by list (src/persistence.cpp). */
module Decoding {
  import opened Basics
  import opened Vocabulary
  import opened ProgressModel
  import opened Dependencies
  import opened Resources
  import opened Model
  import opened Binary
  import opened Streams
  import opened Codec

  // ---- Counted loops -------------------------------------------------------

  /** The items read so far, followed by what reading the others gives. */
  function Continued<T>(xs: seq<T>, r: Res<seq<T>>): Res<seq<T>> {
    var (ys, s) :- r;
    Ok(xs + ys, s)
  }

  lemma Starts<T>(r: Res<seq<T>>)
    ensures Continued([], r) == r
  {
    if r.Ok? {
      assert [] + r.value == r.value;
    }
  }

  lemma Continues<T>(get: Bytes -> Res<T>, xs: seq<T>, n: nat, s: Bytes)
    requires n > 0
    ensures Continued(xs, GetMany(get, n, s)) ==
            match get(s)
            case Ok(x, rest) => Continued(xs + [x], GetMany(get, n - 1, rest))
            case Reject => Reject
            case Short => Short
            case Escape => Escape
  {
    if get(s).Ok? && GetMany(get, n - 1, get(s).rest).Ok? {
      var x, ys := get(s).value, GetMany(get, n - 1, get(s).rest).value;
      assert xs + ([x] + ys) == xs + [x] + ys;
    }
  }

  lemma NoneLeft<T>(get: Bytes -> Res<T>, xs: seq<T>, s: Bytes)
    ensures Continued(xs, GetMany(get, 0, s)) == Ok(xs, s)
  {
    assert xs + [] == xs;
  }

  method ReadRestartPolicy(r: Reader) returns (x: Read<RestartPolicy>)
    requires r.Valid()
    modifies r
    ensures r.Valid() && Follows(x, r.Rest(), GetRestartPolicy(old(r.Rest())))
  {
    hide GetEnum, GetU32, GetBool;
    var kind :- r.Enum(ALL_RESTART_KINDS);
    var maxRestarts :- r.U32();
    var maxRecoverySeconds :- r.U32();
    var carryProgressForward :- r.Bool();
    var carryCheckpoint :- r.Bool();
    return Got(RestartPolicy(kind, maxRestarts, maxRecoverySeconds, carryProgressForward, carryCheckpoint));
  }

  method ReadCompletionPolicy(r: Reader) returns (x: Read<CompletionPolicy>)
    requires r.Valid()
    modifies r
    ensures r.Valid() && Follows(x, r.Rest(), GetCompletionPolicy(old(r.Rest())))
  {
    hide GetEnum, GetU32, GetBool;
    var kind :- r.Enum(ALL_COMPLETION_KINDS);
    var requiredUnits :- r.U32();
    var requireDurableArtifact :- r.Bool();
    var allowZeroWorkCompletion :- r.Bool();
    return Got(CompletionPolicy(kind, requiredUnits, requireDurableArtifact, allowZeroWorkCompletion));
  }

  method ReadMigrationPolicy(r: Reader) returns (x: Read<MigrationPolicy>)
    requires r.Valid()
    modifies r
    ensures r.Valid() && Follows(x, r.Rest(), GetMigrationPolicy(old(r.Rest())))
  {
    hide GetEnum, GetBool;
    var eligibility :- r.Enum(ALL_MIGRATION_ELIGIBILITIES);
    var requireCheckpoint :- r.Bool();
    var requireQuiescence :- r.Bool();
    var allowLossy :- r.Bool();
    return Got(MigrationPolicy(eligibility, requireCheckpoint, requireQuiescence, allowLossy));
  }

  method ReadSuspensionPolicy(r: Reader) returns (x: Read<SuspensionPolicy>)
    requires r.Valid()
    modifies r
    ensures r.Valid() && Follows(x, r.Rest(), GetSuspensionPolicy(old(r.Rest())))
  {
    hide GetBool, GetU32;
    var allowed :- r.Bool();
    var requireDurableState :- r.Bool();
    var maxSuspendedSeconds :- r.U32();
    var releaseResources :- r.Bool();
    return Got(SuspensionPolicy(allowed, requireDurableState, maxSuspendedSeconds, releaseResources));
  }

  method ReadPolicy(r: Reader) returns (x: Read<Policy>)
    requires r.Valid()
    modifies r
    ensures r.Valid() && Follows(x, r.Rest(), GetPolicy(old(r.Rest())))
  {
    hide GetRestartPolicy, GetCompletionPolicy, GetMigrationPolicy, GetSuspensionPolicy, GetEnum, GetU64;
    var restart :- ReadRestartPolicy(r);
    var completion :- ReadCompletionPolicy(r);
    var migration :- ReadMigrationPolicy(r);
    var suspension :- ReadSuspensionPolicy(r);
    var cancelRace :- r.Enum(ALL_CANCEL_RACES);
    var generation :- r.U64();
    return Got(Policy(restart, completion, migration, suspension, cancelRace, generation));
  }

  method ReadRequirement(r: Reader) returns (x: Read<Requirement>)
    requires r.Valid()
    modifies r
    ensures r.Valid() && Follows(x, r.Rest(), GetRequirement(old(r.Rest())))
  {
    hide GetEnum, GetU64, GetStr;
    var kind :- r.Enum(ALL_RESOURCE_KINDS);
    var level :- r.Enum(ALL_NEED_LEVELS);
    var minValue :- r.U64();
    var maxValue :- r.U64();
    if !IsFinite(minValue) || !IsFinite(maxValue) || F64Less(minValue, F64_ZERO) {
      return Failed(REJECTED);
    }
    var spec :- r.Str();
    return Got(Requirement(kind, level, minValue, maxValue, spec));
  }

  method ReadRequirements(r: Reader, n: u32) returns (xs: Read<seq<Requirement>>)
    requires r.Valid()
    modifies r
    ensures r.Valid() && Follows(xs, r.Rest(), GetMany(GetRequirement, n, old(r.Rest())))
  {
    hide GetRequirement, GetMany;
    ghost var start := r.Rest();
    var got: seq<Requirement> := [];
    var i := 0;
    Starts(GetMany(GetRequirement, n, start));
    while i < n
      invariant 0 <= i <= n && r.Valid()
      invariant GetMany(GetRequirement, n, start) == Continued(got, GetMany(GetRequirement, n - i, r.Rest()))
    {
      Continues(GetRequirement, got, n - i, r.Rest());
      var x :- ReadRequirement(r);
      got := got + [x];
      i := i + 1;
    }
    NoneLeft(GetRequirement, got, r.Rest());
    return Got(got);
  }

  method ReadBinding(r: Reader) returns (x: Read<Binding>)
    requires r.Valid()
    modifies r
    ensures r.Valid() && Follows(x, r.Rest(), GetBinding(old(r.Rest())))
  {
    hide GetEnum, GetU64, GetStr;
    var kind :- r.Enum(ALL_RESOURCE_KINDS);
    var amount :- r.U64();
    if !IsFinite(amount) || F64Less(amount, F64_ZERO) {
      return Failed(REJECTED);
    }
    var qualifier :- r.Str();
    return Got(Binding(kind, amount, qualifier));
  }

  method ReadBindings(r: Reader, n: u32) returns (xs: Read<seq<Binding>>)
    requires r.Valid()
    modifies r
    ensures r.Valid() && Follows(xs, r.Rest(), GetMany(GetBinding, n, old(r.Rest())))
  {
    hide GetBinding, GetMany;
    ghost var start := r.Rest();
    var got: seq<Binding> := [];
    var i := 0;
    Starts(GetMany(GetBinding, n, start));
    while i < n
      invariant 0 <= i <= n && r.Valid()
      invariant GetMany(GetBinding, n, start) == Continued(got, GetMany(GetBinding, n - i, r.Rest()))
    {
      Continues(GetBinding, got, n - i, r.Rest());
      var x :- ReadBinding(r);
      got := got + [x];
      i := i + 1;
    }
    NoneLeft(GetBinding, got, r.Rest());
    return Got(got);
  }

  method ReadGrant(r: Reader) returns (x: Read<Grant>)
    requires r.Valid()
    modifies r
    ensures r.Valid() && Follows(x, r.Rest(), GetGrant(old(r.Rest())))
  {
    hide GetU64, GetEnum, GetBool, GetU32, GetMany, GetBinding;
    var contractId :- r.U64();
    var contractGeneration :- r.U64();
    var status :- r.Enum(ALL_GRANT_STATUSES);
    var released :- r.Bool();
    var n :- r.U32();
    var bindings :- ReadBindings(r, n);
    return Got(Grant(contractId, contractGeneration, status, released, bindings));
  }

  method ReadContract(r: Reader) returns (x: Read<Contract>)
    requires r.Valid()
    modifies r
    ensures r.Valid() && Follows(x, r.Rest(), GetContract(old(r.Rest())))
  {
    hide GetU64, GetU32, GetMany, GetRequirement, GetGrant;
    var id :- r.U64();
    var generation :- r.U64();
    var n :- r.U32();
    var reqs :- ReadRequirements(r, n);
    var grant :- ReadGrant(r);
    return Got(Contract(id, generation, reqs, grant));
  }

  method ReadDef(r: Reader) returns (x: Read<DependencyDef>)
    requires r.Valid()
    modifies r
    ensures r.Valid() && Follows(x, r.Rest(), GetDef(old(r.Rest())))
  {
    hide GetU64, GetEnum, GetStr;
    var dependsOn :- r.U64();
    var requirement :- r.Enum(ALL_DEPENDENCY_REQUIREMENTS);
    var readyWhen :- r.Enum(ALL_DEPENDENCY_READY);
    var artifactKey :- r.Str();
    return Got(DependencyDef(dependsOn, requirement, readyWhen, artifactKey));
  }

  method ReadDefinitions(r: Reader, n: u32) returns (xs: Read<seq<DependencyDef>>)
    requires r.Valid()
    modifies r
    ensures r.Valid() && Follows(xs, r.Rest(), GetMany(GetDef, n, old(r.Rest())))
  {
    hide GetDef, GetMany;
    ghost var start := r.Rest();
    var got: seq<DependencyDef> := [];
    var i := 0;
    Starts(GetMany(GetDef, n, start));
    while i < n
      invariant 0 <= i <= n && r.Valid()
      invariant GetMany(GetDef, n, start) == Continued(got, GetMany(GetDef, n - i, r.Rest()))
    {
      Continues(GetDef, got, n - i, r.Rest());
      var x :- ReadDef(r);
      got := got + [x];
      i := i + 1;
    }
    NoneLeft(GetDef, got, r.Rest());
    return Got(got);
  }

  method ReadState(r: Reader) returns (x: Read<DependencyState>)
    requires r.Valid()
    modifies r
    ensures r.Valid() && Follows(x, r.Rest(), GetState(old(r.Rest())))
  {
    hide GetEnum, GetU64, GetStr;
    var status :- r.Enum(ALL_DEPENDENCY_STATUSES);
    var observed :- r.U64();
    var detail :- r.Str();
    return Got(DependencyState(status, observed, detail));
  }

  /** Every state read is stored at its index, over the fresh one its definition came with. */
  method ReadStates(r: Reader, nd: u32, ns: u32) returns (xs: Read<seq<DependencyState>>)
    requires r.Valid()
    modifies r
    ensures r.Valid() && Follows(xs, r.Rest(), GetStates(nd, ns, old(r.Rest())))
  {
    hide GetState, GetMany;
    ghost var start, m := r.Rest(), if ns <= nd then ns else nd + 1;
    ghost var got: seq<DependencyState> := [];
    var states := seq(nd, _ => FRESH_STATE);
    var i := 0;
    Starts(GetMany(GetState, m, start));
    while i < ns
      invariant 0 <= i <= ns && i <= nd && r.Valid()
      invariant |got| == i && states == got + seq(nd - i, _ => FRESH_STATE)
      invariant GetMany(GetState, m, start) == Continued(got, GetMany(GetState, m - i, r.Rest()))
    {
      Continues(GetState, got, m - i, r.Rest());
      var x :- ReadState(r);
      got := got + [x];
      if i >= |states| {
        NoneLeft(GetState, got, r.Rest());
        return Failed(ESCAPED);
      }
      states := states[i := x];
      i := i + 1;
    }
    NoneLeft(GetState, got, r.Rest());
    return Got(states);
  }

  method ReadDeps(r: Reader) returns (x: Read<Deps>)
    requires r.Valid()
    modifies r
    ensures r.Valid() && Follows(x, r.Rest(), GetDeps(old(r.Rest())))
  {
    hide GetU64, GetU32, GetMany, GetDef, GetStates;
    var id :- r.U64();
    var generation :- r.U64();
    var nd :- r.U32();
    var defs :- ReadDefinitions(r, nd);
    var ns :- r.U32();
    var states :- ReadStates(r, nd, ns);
    return Got(Deps(id, generation, defs, states));
  }

  method ReadPriority(r: Reader) returns (x: Read<Priority>)
    requires r.Valid()
    modifies r
    ensures r.Valid() && Follows(x, r.Rest(), GetPriority(old(r.Rest())))
  {
    hide GetU64, GetEnum, GetBool;
    var cls :- r.U64();
    var generation :- r.U64();
    var baseTier :- r.Enum(ALL_PRIORITY_TIERS);
    var baseValue :- r.U64();
    var promotion :- r.U64();
    var starved :- r.Bool();
    var preemptible :- r.Bool();
    var protectedFromPreemption :- r.Bool();
    return Got(Priority(cls, generation, baseTier, U64ToI32(baseValue), U64ToI32(promotion),
                        starved, preemptible, protectedFromPreemption));
  }

  method ReadProgress(r: Reader) returns (x: Read<Progress>)
    requires r.Valid()
    modifies r
    ensures r.Valid() && Follows(x, r.Rest(), GetProgress(old(r.Rest())))
  {
    hide GetU64, GetEnum, GetBool;
    var completed :- r.U64();
    var totalKind :- r.Enum(ALL_TOTAL_KINDS);
    var total :- r.U64();
    var checkpointed :- r.U64();
    var provenance :- r.Enum(ALL_PROVENANCES);
    var lastAuthoritativeGeneration :- r.U64();
    var monotonic :- r.Bool();
    return Got(Progress(completed, totalKind, total, checkpointed, provenance, lastAuthoritativeGeneration, monotonic));
  }

  method ReadEpisodeHead(r: Reader) returns (x: Read<EpisodeHead>)
    requires r.Valid()
    modifies r
    ensures r.Valid() && Follows(x, r.Rest(), GetEpisodeHead(old(r.Rest())))
  {
    hide GetU64, GetEnum;
    var id :- r.U64();
    var generation :- r.U64();
    var state :- r.Enum(ALL_EPISODE_STATES);
    var owner :- r.U64();
    var ownerGeneration :- r.U64();
    var worker :- r.U64();
    var boot :- r.U64();
    return Got(EpisodeHead(id, generation, state, owner, ownerGeneration, worker, boot));
  }

  method ReadHandle(r: Reader) returns (x: Read<Handle>)
    requires r.Valid()
    modifies r
    ensures r.Valid() && Follows(x, r.Rest(), GetHandle(old(r.Rest())))
  {
    hide GetU64, GetStr;
    var worker :- r.U64();
    var boot :- r.U64();
    var attemptGeneration :- r.U64();
    var intent :- r.Str();
    return Got(Handle(worker, boot, attemptGeneration, intent));
  }

  method ReadLineage(r: Reader) returns (x: Read<Lineage>)
    requires r.Valid()
    modifies r
    ensures r.Valid() && Follows(x, r.Rest(), GetLineage(old(r.Rest())))
  {
    hide GetU64;
    var restartGeneration :- r.U64();
    var recoveryGeneration :- r.U64();
    var checkpoint :- r.U64();
    var checkpointGeneration :- r.U64();
    var migrationId :- r.U64();
    var migrationGeneration :- r.U64();
    return Got(Lineage(restartGeneration, recoveryGeneration, checkpoint, checkpointGeneration, migrationId, migrationGeneration));
  }

  method ReadEpisodeTail(r: Reader) returns (x: Read<EpisodeTail>)
    requires r.Valid()
    modifies r
    ensures r.Valid() && Follows(x, r.Rest(), GetEpisodeTail(old(r.Rest())))
  {
    hide GetStr, GetBool;
    var intent :- r.Str();
    var authoritative :- r.Bool();
    var failed :- r.Bool();
    var cancelled :- r.Bool();
    var completed :- r.Bool();
    var workerLost :- r.Bool();
    return Got(EpisodeTail(intent, authoritative, failed, cancelled, completed, workerLost));
  }

  method ReadEpisode(r: Reader) returns (x: Read<Episode>)
    requires r.Valid()
    modifies r
    ensures r.Valid() && Follows(x, r.Rest(), GetEpisode(old(r.Rest())))
  {
    hide GetEpisodeHead, GetHandle, GetLineage, GetProgress, GetEpisodeTail;
    var head :- ReadEpisodeHead(r);
    var handle :- ReadHandle(r);
    var lineage :- ReadLineage(r);
    var progress :- ReadProgress(r);
    var tail :- ReadEpisodeTail(r);
    return Got(EpisodeOf(head, handle, lineage, progress, tail));
  }

  method ReadEpisodes(r: Reader, n: u32) returns (xs: Read<seq<Episode>>)
    requires r.Valid()
    modifies r
    ensures r.Valid() && Follows(xs, r.Rest(), GetMany(GetEpisode, n, old(r.Rest())))
  {
    hide GetEpisode, GetMany;
    ghost var start := r.Rest();
    var got: seq<Episode> := [];
    var i := 0;
    Starts(GetMany(GetEpisode, n, start));
    while i < n
      invariant 0 <= i <= n && r.Valid()
      invariant GetMany(GetEpisode, n, start) == Continued(got, GetMany(GetEpisode, n - i, r.Rest()))
    {
      Continues(GetEpisode, got, n - i, r.Rest());
      var x :- ReadEpisode(r);
      got := got + [x];
      i := i + 1;
    }
    NoneLeft(GetEpisode, got, r.Rest());
    return Got(got);
  }

  method ReadRecord(r: Reader) returns (x: Read<Record>)
    requires r.Valid()
    modifies r
    ensures r.Valid() && Follows(x, r.Rest(), GetRecord(old(r.Rest())))
  {
    hide GetEnum, GetU64, GetStr;
    var from :- r.Enum(ALL_WORKLOAD_STATES);
    var to :- r.Enum(ALL_WORKLOAD_STATES);
    var generation :- r.U64();
    var timestampMs :- r.U64();
    var reason :- r.Str();
    var outcome :- r.Enum(ALL_OUTCOMES);
    return Got(Record(from, to, generation, timestampMs, reason, outcome));
  }

  method ReadRecords(r: Reader, n: u32) returns (xs: Read<seq<Record>>)
    requires r.Valid()
    modifies r
    ensures r.Valid() && Follows(xs, r.Rest(), GetMany(GetRecord, n, old(r.Rest())))
  {
    hide GetRecord, GetMany;
    ghost var start := r.Rest();
    var got: seq<Record> := [];
    var i := 0;
    Starts(GetMany(GetRecord, n, start));
    while i < n
      invariant 0 <= i <= n && r.Valid()
      invariant GetMany(GetRecord, n, start) == Continued(got, GetMany(GetRecord, n - i, r.Rest()))
    {
      Continues(GetRecord, got, n - i, r.Rest());
      var x :- ReadRecord(r);
      got := got + [x];
      i := i + 1;
    }
    NoneLeft(GetRecord, got, r.Rest());
    return Got(got);
  }

  method ReadHeader(r: Reader) returns (x: Read<Header>)
    requires r.Valid()
    modifies r
    ensures r.Valid() && Follows(x, r.Rest(), GetHeader(old(r.Rest())))
  {
    hide GetU64, GetEnum, GetStr;
    var id :- r.U64();
    var generation :- r.U64();
    var revision :- r.U64();
    var state :- r.Enum(ALL_WORKLOAD_STATES);
    var name :- r.Str();
    var intent :- r.Str();
    return Got(Header(id, generation, revision, state, name, intent));
  }

  method ReadCounters(r: Reader) returns (x: Read<Counters>)
    requires r.Valid()
    modifies r
    ensures r.Valid() && Follows(x, r.Rest(), GetCounters(old(r.Rest())))
  {
    hide GetU64, GetU32;
    var owner :- r.U64();
    var ownerGeneration :- r.U64();
    var epoch :- r.U64();
    var restartCount :- r.U32();
    var restartGen :- r.U64();
    var migrationId :- r.U64();
    var migrationGen :- r.U64();
    var completionGen :- r.U64();
    return Got(Counters(owner, ownerGeneration, epoch, restartCount, restartGen, migrationId, migrationGen, completionGen));
  }

  method ReadMarks(r: Reader) returns (x: Read<Marks>)
    requires r.Valid()
    modifies r
    ensures r.Valid() && Follows(x, r.Rest(), GetMarks(old(r.Rest())))
  {
    hide GetBool, GetStr, GetU64;
    var requested :- r.Bool();
    var finished :- r.Bool();
    var wasRejected :- r.Bool();
    var lastReason :- r.Str();
    var lastSource :- r.U64();
    return Got(Marks(Cancellation(requested, finished, wasRejected), lastReason, lastSource));
  }

  method ReadFront(r: Reader) returns (x: Read<Front>)
    requires r.Valid()
    modifies r
    ensures r.Valid() && Follows(x, r.Rest(), GetFront(old(r.Rest())))
  {
    hide GetHeader, GetPolicy, GetContract, GetDeps, GetPriority;
    var header :- ReadHeader(r);
    var policy :- ReadPolicy(r);
    var contract :- ReadContract(r);
    var deps :- ReadDeps(r);
    var priority :- ReadPriority(r);
    return Got(Front(header, policy, contract, deps, priority));
  }

  method ReadRear(r: Reader) returns (x: Read<Rear>)
    requires r.Valid()
    modifies r
    ensures r.Valid() && Follows(x, r.Rest(), GetRear(old(r.Rest())))
  {
    hide GetProgress, GetCounters, GetMarks, GetU32, GetMany, GetEpisode, GetRecord;
    var progress :- ReadProgress(r);
    var counters :- ReadCounters(r);
    var marks :- ReadMarks(r);
    var ne :- r.U32();
    var episodes :- ReadEpisodes(r, ne);
    var nh :- r.U32();
    var history :- ReadRecords(r, nh);
    return Got(Rear(progress, counters, marks, episodes, history));
  }
}

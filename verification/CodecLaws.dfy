/** What the decoder makes of what the encoder wrote, and of any other bytes. */
module CodecLaws {
  import opened Basics
  import opened Vocabulary
  import opened ProgressModel
  import opened Dependencies
  import opened Resources
  import opened Model
  import opened Binary
  import opened Codec

  // ---- Sizes every count and length field can hold ---------------------------

  predicate SizedStr(s: Bytes) {
    |s| < TWO64
  }

  predicate SizedRequirement(r: Requirement) {
    SizedStr(r.spec)
  }

  predicate SizedBinding(b: Binding) {
    SizedStr(b.qualifier)
  }

  predicate SizedDef(d: DependencyDef) {
    SizedStr(d.artifactKey)
  }

  predicate SizedState(d: DependencyState) {
    SizedStr(d.detail)
  }

  predicate SizedHandle(h: Handle) {
    SizedStr(h.intent)
  }

  predicate SizedEpisodeTail(e: EpisodeTail) {
    SizedStr(e.intent)
  }

  predicate SizedRecord(r: Record) {
    SizedStr(r.reason)
  }

  predicate SizedHeader(h: Header) {
    SizedStr(h.name) && SizedStr(h.intent)
  }

  predicate SizedMarks(m: Marks) {
    SizedStr(m.lastReason)
  }

  lemma RestartKindListed(x: RestartKind)
    ensures x in ALL_RESTART_KINDS
  {
  }

  lemma CompletionKindListed(x: CompletionKind)
    ensures x in ALL_COMPLETION_KINDS
  {
  }

  lemma MigrationEligibilityListed(x: MigrationEligibility)
    ensures x in ALL_MIGRATION_ELIGIBILITIES
  {
  }

  lemma CancelRaceListed(x: CancelRace)
    ensures x in ALL_CANCEL_RACES
  {
  }

  lemma WorkloadStateListed(x: WorkloadState)
    ensures x in ALL_WORKLOAD_STATES
  {
  }

  lemma EpisodeStateListed(x: EpisodeState)
    ensures x in ALL_EPISODE_STATES
  {
  }

  lemma OutcomeListed(x: Outcome)
    ensures x in ALL_OUTCOMES
  {
  }

  lemma NeedLevelListed(x: NeedLevel)
    ensures x in ALL_NEED_LEVELS
  {
  }

  lemma ResourceKindListed(x: ResourceKind)
    ensures x in ALL_RESOURCE_KINDS
  {
  }

  lemma GrantStatusListed(x: GrantStatus)
    ensures x in ALL_GRANT_STATUSES
  {
  }

  lemma DependencyRequirementListed(x: DependencyRequirement)
    ensures x in ALL_DEPENDENCY_REQUIREMENTS
  {
  }

  lemma DependencyReadyListed(x: DependencyReady)
    ensures x in ALL_DEPENDENCY_READY
  {
  }

  lemma DependencyStatusListed(x: DependencyStatus)
    ensures x in ALL_DEPENDENCY_STATUSES
  {
  }

  lemma PriorityTierListed(x: PriorityTier)
    ensures x in ALL_PRIORITY_TIERS
  {
  }

  lemma TotalKindListed(x: TotalKind)
    ensures x in ALL_TOTAL_KINDS
  {
  }

  lemma ProvenanceListed(x: Provenance)
    ensures x in ALL_PROVENANCES
  {
  }

  lemma MsgTypeListed(x: MsgType)
    ensures x in ALL_MSG_TYPES
  {
  }

  lemma AllListed()
    ensures Lists(ALL_RESTART_KINDS)
    ensures Lists(ALL_COMPLETION_KINDS)
    ensures Lists(ALL_MIGRATION_ELIGIBILITIES)
    ensures Lists(ALL_CANCEL_RACES)
    ensures Lists(ALL_WORKLOAD_STATES)
    ensures Lists(ALL_EPISODE_STATES)
    ensures Lists(ALL_OUTCOMES)
    ensures Lists(ALL_NEED_LEVELS)
    ensures Lists(ALL_RESOURCE_KINDS)
    ensures Lists(ALL_GRANT_STATUSES)
    ensures Lists(ALL_DEPENDENCY_REQUIREMENTS)
    ensures Lists(ALL_DEPENDENCY_READY)
    ensures Lists(ALL_DEPENDENCY_STATUSES)
    ensures Lists(ALL_PRIORITY_TIERS)
    ensures Lists(ALL_TOTAL_KINDS)
    ensures Lists(ALL_PROVENANCES)
    ensures Lists(ALL_MSG_TYPES)
  {
    forall x: RestartKind ensures x in ALL_RESTART_KINDS { RestartKindListed(x); }
    forall x: CompletionKind ensures x in ALL_COMPLETION_KINDS { CompletionKindListed(x); }
    forall x: MigrationEligibility ensures x in ALL_MIGRATION_ELIGIBILITIES { MigrationEligibilityListed(x); }
    forall x: CancelRace ensures x in ALL_CANCEL_RACES { CancelRaceListed(x); }
    forall x: WorkloadState ensures x in ALL_WORKLOAD_STATES { WorkloadStateListed(x); }
    forall x: EpisodeState ensures x in ALL_EPISODE_STATES { EpisodeStateListed(x); }
    forall x: Outcome ensures x in ALL_OUTCOMES { OutcomeListed(x); }
    forall x: NeedLevel ensures x in ALL_NEED_LEVELS { NeedLevelListed(x); }
    forall x: ResourceKind ensures x in ALL_RESOURCE_KINDS { ResourceKindListed(x); }
    forall x: GrantStatus ensures x in ALL_GRANT_STATUSES { GrantStatusListed(x); }
    forall x: DependencyRequirement ensures x in ALL_DEPENDENCY_REQUIREMENTS { DependencyRequirementListed(x); }
    forall x: DependencyReady ensures x in ALL_DEPENDENCY_READY { DependencyReadyListed(x); }
    forall x: DependencyStatus ensures x in ALL_DEPENDENCY_STATUSES { DependencyStatusListed(x); }
    forall x: PriorityTier ensures x in ALL_PRIORITY_TIERS { PriorityTierListed(x); }
    forall x: TotalKind ensures x in ALL_TOTAL_KINDS { TotalKindListed(x); }
    forall x: Provenance ensures x in ALL_PROVENANCES { ProvenanceListed(x); }
    forall x: MsgType ensures x in ALL_MSG_TYPES { MsgTypeListed(x); }
  }

  lemma RestartPolicyLaws()
    ensures forall x: RestartPolicy, k {:trigger PutRestartPolicy(x, k)} ::
              GetRestartPolicy(PutRestartPolicy(x, k)) == Ok(x, k)
    ensures forall s, m {:trigger GetRestartPolicy(s + m)} :: Stable(GetRestartPolicy(s), GetRestartPolicy(s + m), m)
  {
    hide GetEnum, GetU32, GetU64, GetBool, GetStr, PutEnum, PutU32, PutU64, PutBool, PutStr, Lists;
    AllListed();
    EnumLaws(ALL_RESTART_KINDS);
    ReadsUndoWrites();
    ReadsAreStable();
  }

  lemma CompletionPolicyLaws()
    ensures forall x: CompletionPolicy, k {:trigger PutCompletionPolicy(x, k)} ::
              GetCompletionPolicy(PutCompletionPolicy(x, k)) == Ok(x, k)
    ensures forall s, m {:trigger GetCompletionPolicy(s + m)} ::
              Stable(GetCompletionPolicy(s), GetCompletionPolicy(s + m), m)
  {
    hide GetEnum, GetU32, GetU64, GetBool, GetStr, PutEnum, PutU32, PutU64, PutBool, PutStr, Lists;
    AllListed();
    EnumLaws(ALL_COMPLETION_KINDS);
    ReadsUndoWrites();
    ReadsAreStable();
  }

  lemma MigrationPolicyLaws()
    ensures forall x: MigrationPolicy, k {:trigger PutMigrationPolicy(x, k)} ::
              GetMigrationPolicy(PutMigrationPolicy(x, k)) == Ok(x, k)
    ensures forall s, m {:trigger GetMigrationPolicy(s + m)} :: Stable(GetMigrationPolicy(s), GetMigrationPolicy(s + m), m)
  {
    hide GetEnum, GetU32, GetU64, GetBool, GetStr, PutEnum, PutU32, PutU64, PutBool, PutStr, Lists;
    AllListed();
    EnumLaws(ALL_MIGRATION_ELIGIBILITIES);
    ReadsUndoWrites();
    ReadsAreStable();
  }

  lemma SuspensionPolicyLaws()
    ensures forall x: SuspensionPolicy, k {:trigger PutSuspensionPolicy(x, k)} ::
              GetSuspensionPolicy(PutSuspensionPolicy(x, k)) == Ok(x, k)
    ensures forall s, m {:trigger GetSuspensionPolicy(s + m)} ::
              Stable(GetSuspensionPolicy(s), GetSuspensionPolicy(s + m), m)
  {
    hide GetEnum, GetU32, GetU64, GetBool, GetStr, PutEnum, PutU32, PutU64, PutBool, PutStr, Lists;
    ReadsUndoWrites();
    ReadsAreStable();
  }

  lemma RequirementLaws()
    ensures forall x: Requirement, k {:trigger PutRequirement(x, k)} ::
              SizedRequirement(x) ==>
                GetRequirement(PutRequirement(x, k)) == (if GoodRequirement(x) then Ok(x, k) else Reject)
    ensures forall s, m {:trigger GetRequirement(s + m)} :: Stable(GetRequirement(s), GetRequirement(s + m), m)
  {
    hide GetEnum, GetU32, GetU64, GetBool, GetStr, PutEnum, PutU32, PutU64, PutBool, PutStr, Lists;
    AllListed();
    EnumLaws(ALL_RESOURCE_KINDS);
    EnumLaws(ALL_NEED_LEVELS);
    ReadsUndoWrites();
    ReadsAreStable();
  }

  lemma BindingLaws()
    ensures forall x: Binding, k {:trigger PutBinding(x, k)} ::
              SizedBinding(x) ==> GetBinding(PutBinding(x, k)) == (if GoodBinding(x) then Ok(x, k) else Reject)
    ensures forall s, m {:trigger GetBinding(s + m)} :: Stable(GetBinding(s), GetBinding(s + m), m)
  {
    hide GetEnum, GetU32, GetU64, GetBool, GetStr, PutEnum, PutU32, PutU64, PutBool, PutStr, Lists;
    AllListed();
    EnumLaws(ALL_RESOURCE_KINDS);
    ReadsUndoWrites();
    ReadsAreStable();
  }

  lemma DefLaws()
    ensures forall x: DependencyDef, k {:trigger PutDef(x, k)} :: SizedDef(x) ==> GetDef(PutDef(x, k)) == Ok(x, k)
    ensures forall s, m {:trigger GetDef(s + m)} :: Stable(GetDef(s), GetDef(s + m), m)
  {
    hide GetEnum, GetU32, GetU64, GetBool, GetStr, PutEnum, PutU32, PutU64, PutBool, PutStr, Lists;
    AllListed();
    EnumLaws(ALL_DEPENDENCY_REQUIREMENTS);
    EnumLaws(ALL_DEPENDENCY_READY);
    ReadsUndoWrites();
    ReadsAreStable();
  }

  lemma StateLaws()
    ensures forall x: DependencyState, k {:trigger PutState(x, k)} :: SizedState(x) ==> GetState(PutState(x, k)) == Ok(x, k)
    ensures forall s, m {:trigger GetState(s + m)} :: Stable(GetState(s), GetState(s + m), m)
  {
    hide GetEnum, GetU32, GetU64, GetBool, GetStr, PutEnum, PutU32, PutU64, PutBool, PutStr, Lists;
    AllListed();
    EnumLaws(ALL_DEPENDENCY_STATUSES);
    ReadsUndoWrites();
    ReadsAreStable();
  }

  lemma PriorityLaws()
    ensures forall x: Priority, k {:trigger PutPriority(x, k)} :: GetPriority(PutPriority(x, k)) == Ok(x, k)
    ensures forall s, m {:trigger GetPriority(s + m)} :: Stable(GetPriority(s), GetPriority(s + m), m)
  {
    hide GetEnum, GetU32, GetU64, GetBool, GetStr, PutEnum, PutU32, PutU64, PutBool, PutStr, Lists;
    AllListed();
    EnumLaws(ALL_PRIORITY_TIERS);
    ReadsUndoWrites();
    ReadsAreStable();
    forall v: i32 ensures U64ToI32(I32ToU64(v)) == v { IntBack(v); }
  }

  lemma ProgressLaws()
    ensures forall x: Progress, k {:trigger PutProgress(x, k)} :: GetProgress(PutProgress(x, k)) == Ok(x, k)
    ensures forall s, m {:trigger GetProgress(s + m)} :: Stable(GetProgress(s), GetProgress(s + m), m)
  {
    hide GetEnum, GetU32, GetU64, GetBool, GetStr, PutEnum, PutU32, PutU64, PutBool, PutStr, Lists;
    AllListed();
    EnumLaws(ALL_TOTAL_KINDS);
    EnumLaws(ALL_PROVENANCES);
    ReadsUndoWrites();
    ReadsAreStable();
  }

  lemma EpisodeHeadLaws()
    ensures forall x: EpisodeHead, k {:trigger PutEpisodeHead(x, k)} :: GetEpisodeHead(PutEpisodeHead(x, k)) == Ok(x, k)
    ensures forall s, m {:trigger GetEpisodeHead(s + m)} :: Stable(GetEpisodeHead(s), GetEpisodeHead(s + m), m)
  {
    hide GetEnum, GetU32, GetU64, GetBool, GetStr, PutEnum, PutU32, PutU64, PutBool, PutStr, Lists;
    AllListed();
    EnumLaws(ALL_EPISODE_STATES);
    ReadsUndoWrites();
    ReadsAreStable();
  }

  lemma HandleLaws()
    ensures forall x: Handle, k {:trigger PutHandle(x, k)} :: SizedHandle(x) ==> GetHandle(PutHandle(x, k)) == Ok(x, k)
    ensures forall s, m {:trigger GetHandle(s + m)} :: Stable(GetHandle(s), GetHandle(s + m), m)
  {
    hide GetEnum, GetU32, GetU64, GetBool, GetStr, PutEnum, PutU32, PutU64, PutBool, PutStr, Lists;
    ReadsUndoWrites();
    ReadsAreStable();
  }

  lemma LineageLaws()
    ensures forall x: Lineage, k {:trigger PutLineage(x, k)} :: GetLineage(PutLineage(x, k)) == Ok(x, k)
    ensures forall s, m {:trigger GetLineage(s + m)} :: Stable(GetLineage(s), GetLineage(s + m), m)
  {
    hide GetEnum, GetU32, GetU64, GetBool, GetStr, PutEnum, PutU32, PutU64, PutBool, PutStr, Lists;
    ReadsUndoWrites();
    ReadsAreStable();
  }

  lemma EpisodeTailLaws()
    ensures forall x: EpisodeTail, k {:trigger PutEpisodeTail(x, k)} ::
              SizedEpisodeTail(x) ==> GetEpisodeTail(PutEpisodeTail(x, k)) == Ok(x, k)
    ensures forall s, m {:trigger GetEpisodeTail(s + m)} :: Stable(GetEpisodeTail(s), GetEpisodeTail(s + m), m)
  {
    hide GetEnum, GetU32, GetU64, GetBool, GetStr, PutEnum, PutU32, PutU64, PutBool, PutStr, Lists;
    ReadsUndoWrites();
    ReadsAreStable();
  }

  lemma RecordLaws()
    ensures forall x: Record, k {:trigger PutRecord(x, k)} :: SizedRecord(x) ==> GetRecord(PutRecord(x, k)) == Ok(x, k)
    ensures forall s, m {:trigger GetRecord(s + m)} :: Stable(GetRecord(s), GetRecord(s + m), m)
  {
    hide GetEnum, GetU32, GetU64, GetBool, GetStr, PutEnum, PutU32, PutU64, PutBool, PutStr, Lists;
    AllListed();
    EnumLaws(ALL_WORKLOAD_STATES);
    EnumLaws(ALL_OUTCOMES);
    ReadsUndoWrites();
    ReadsAreStable();
  }

  lemma HeaderLaws()
    ensures forall x: Header, k {:trigger PutHeader(x, k)} :: SizedHeader(x) ==> GetHeader(PutHeader(x, k)) == Ok(x, k)
    ensures forall s, m {:trigger GetHeader(s + m)} :: Stable(GetHeader(s), GetHeader(s + m), m)
  {
    hide GetEnum, GetU32, GetU64, GetBool, GetStr, PutEnum, PutU32, PutU64, PutBool, PutStr, Lists;
    AllListed();
    EnumLaws(ALL_WORKLOAD_STATES);
    ReadsUndoWrites();
    ReadsAreStable();
  }

  lemma CountersLaws()
    ensures forall x: Counters, k {:trigger PutCounters(x, k)} :: GetCounters(PutCounters(x, k)) == Ok(x, k)
    ensures forall s, m {:trigger GetCounters(s + m)} :: Stable(GetCounters(s), GetCounters(s + m), m)
  {
    hide GetEnum, GetU32, GetU64, GetBool, GetStr, PutEnum, PutU32, PutU64, PutBool, PutStr, Lists;
    ReadsUndoWrites();
    ReadsAreStable();
  }

  lemma MarksLaws()
    ensures forall x: Marks, k {:trigger PutMarks(x, k)} :: SizedMarks(x) ==> GetMarks(PutMarks(x, k)) == Ok(x, k)
    ensures forall s, m {:trigger GetMarks(s + m)} :: Stable(GetMarks(s), GetMarks(s + m), m)
  {
    hide GetEnum, GetU32, GetU64, GetBool, GetStr, PutEnum, PutU32, PutU64, PutBool, PutStr, Lists;
    ReadsUndoWrites();
    ReadsAreStable();
  }

  // ---- Counted lists -------------------------------------------------------

  lemma CountLaw()
    ensures forall n: nat, k {:trigger PutCount(n, k)} :: n < TWO32 ==> GetU32(PutCount(n, k)) == Ok(n, k)
  {
    ReadsUndoWrites();
    hide GetU32, PutU32;
  }

  /** A counted list comes back whole when every item is acceptable, and is rejected otherwise. */
  lemma ListLaws<T(!new)>(get: Bytes -> Res<T>, put: (T, Bytes) -> Bytes, sized: T -> bool, good: T -> bool)
    requires Undoes(get, put, sized, good) && StableReader(get)
    ensures forall xs: seq<T>, k {:trigger PutMany(put, xs, k)} ::
              AllOf(xs, sized) ==> GetMany(get, |xs|, PutMany(put, xs, k)) == if AllOf(xs, good) then Ok(xs, k) else Reject
    ensures forall n: nat, s, m {:trigger GetMany(get, n, s + m)} :: Stable(GetMany(get, n, s), GetMany(get, n, s + m), m)
  {
    hide AllOf, Undoes, StableReader, GetMany, PutMany;
    forall xs: seq<T>, k | AllOf(xs, sized)
      ensures GetMany(get, |xs|, PutMany(put, xs, k)) == if AllOf(xs, good) then Ok(xs, k) else Reject
    {
      ManyBack(get, put, sized, good, xs, k);
    }
    forall n: nat, s, m ensures Stable(GetMany(get, n, s), GetMany(get, n, s + m), m) {
      ManyStable(get, n, s, m);
    }
  }

  // ---- Composite parts -----------------------------------------------------

  lemma PolicyLaws()
    ensures forall p, k {:trigger PutPolicy(p, k)} :: GetPolicy(PutPolicy(p, k)) == Ok(p, k)
    ensures forall s, m {:trigger GetPolicy(s + m)} :: Stable(GetPolicy(s), GetPolicy(s + m), m)
  {
    hide GetEnum, GetU64, PutEnum, PutU64, Lists;
    hide GetRestartPolicy, GetCompletionPolicy, GetMigrationPolicy, GetSuspensionPolicy;
    hide PutRestartPolicy, PutCompletionPolicy, PutMigrationPolicy, PutSuspensionPolicy;
    RestartPolicyLaws();
    CompletionPolicyLaws();
    MigrationPolicyLaws();
    SuspensionPolicyLaws();
    AllListed();
    EnumLaws(ALL_CANCEL_RACES);
    ReadsUndoWrites();
    ReadsAreStable();
  }

  predicate SizedGrant(g: Grant) {
    |g.bindings| < TWO32 && AllOf(g.bindings, SizedBinding)
  }

  predicate GoodGrant(g: Grant) {
    AllOf(g.bindings, GoodBinding)
  }

  lemma GrantLaws()
    ensures forall g, k {:trigger PutGrant(g, k)} ::
              SizedGrant(g) ==> GetGrant(PutGrant(g, k)) == if GoodGrant(g) then Ok(g, k) else Reject
    ensures forall s, m {:trigger GetGrant(s + m)} :: Stable(GetGrant(s), GetGrant(s + m), m)
  {
    BindingLaws();
    hide GetEnum, GetU32, GetU64, GetBool, PutEnum, PutCount, PutU64, PutBool, Lists, AllOf;
    hide GetBinding, PutBinding, SizedBinding, GoodBinding, GetMany, PutMany;
    ListLaws(GetBinding, PutBinding, SizedBinding, GoodBinding);
    AllListed();
    EnumLaws(ALL_GRANT_STATUSES);
    CountLaw();
    ReadsUndoWrites();
    ReadsAreStable();
  }

  predicate SizedContract(c: Contract) {
    |c.reqs| < TWO32 && AllOf(c.reqs, SizedRequirement) && SizedGrant(c.grant)
  }

  predicate GoodContract(c: Contract) {
    AllOf(c.reqs, GoodRequirement) && GoodGrant(c.grant)
  }

  lemma ContractLaws()
    ensures forall c, k {:trigger PutContract(c, k)} ::
              SizedContract(c) ==> GetContract(PutContract(c, k)) == if GoodContract(c) then Ok(c, k) else Reject
    ensures forall s, m {:trigger GetContract(s + m)} :: Stable(GetContract(s), GetContract(s + m), m)
  {
    RequirementLaws();
    hide GetU32, GetU64, PutCount, PutU64, GetGrant, PutGrant, SizedGrant, GoodGrant, AllOf;
    hide GetRequirement, PutRequirement, SizedRequirement, GoodRequirement, GetMany, PutMany;
    ListLaws(GetRequirement, PutRequirement, SizedRequirement, GoodRequirement);
    GrantLaws();
    CountLaw();
    ReadsUndoWrites();
    ReadsAreStable();
  }

  predicate SizedDeps(d: Deps) {
    |d.defs| < TWO32 && |d.states| < TWO32 && AllOf(d.defs, SizedDef) && AllOf(d.states, SizedState)
  }

  predicate Any<T>(x: T) {
    true
  }

  /** What reading back a dependency set gives: missing states are fresh, one state too many escapes. */
  function DepsBack(d: Deps, k: Bytes): Res<Deps> {
    if |d.states| > |d.defs| then Escape
    else Ok(d.(states := d.states + seq(|d.defs| - |d.states|, _ => FRESH_STATE)), k)
  }

  lemma DepsLists()
    ensures forall xs: seq<DependencyDef>, k {:trigger PutMany(PutDef, xs, k)} ::
              AllOf(xs, SizedDef) ==> GetMany(GetDef, |xs|, PutMany(PutDef, xs, k)) == Ok(xs, k)
    ensures forall n: nat, s, m {:trigger GetMany(GetDef, n, s + m)} ::
              Stable(GetMany(GetDef, n, s), GetMany(GetDef, n, s + m), m)
    ensures forall xs: seq<DependencyState>, n: nat, k {:trigger GetMany(GetState, n, PutMany(PutState, xs, k))} ::
              AllOf(xs, SizedState) && n <= |xs| ==>
                GetMany(GetState, n, PutMany(PutState, xs, k)) == Ok(xs[..n], PutMany(PutState, xs[n..], k))
    ensures forall xs: seq<DependencyState>, k {:trigger PutMany(PutState, xs, k)} ::
              AllOf(xs, SizedState) ==> GetMany(GetState, |xs|, PutMany(PutState, xs, k)) == Ok(xs, k)
    ensures forall n: nat, s, m {:trigger GetMany(GetState, n, s + m)} ::
              Stable(GetMany(GetState, n, s), GetMany(GetState, n, s + m), m)
  {
    DefLaws();
    StateLaws();
    hide GetDef, PutDef, GetState, PutState, GetMany, PutMany, SizedDef, SizedState;
    ListLaws(GetDef, PutDef, SizedDef, Any);
    ListLaws(GetState, PutState, SizedState, Any);
    forall xs: seq<DependencyState>, n: nat, k | AllOf(xs, SizedState) && n <= |xs|
      ensures GetMany(GetState, n, PutMany(PutState, xs, k)) == Ok(xs[..n], PutMany(PutState, xs[n..], k))
    {
      PutManySplits(PutState, xs, n, k);
      assert AllOf(xs[..n], SizedState);
      assert GetMany(GetState, |xs[..n]|, PutMany(PutState, xs[..n], PutMany(PutState, xs[n..], k))).Ok?;
    }
  }

  lemma {:induction false} PutManySplits<T>(put: (T, Bytes) -> Bytes, xs: seq<T>, n: nat, k: Bytes)
    requires n <= |xs|
    ensures PutMany(put, xs, k) == PutMany(put, xs[..n], PutMany(put, xs[n..], k))
  {
    if n > 0 {
      PutManySplits(put, xs[1..], n - 1, k);
      assert xs[1..][..n - 1] == xs[..n][1..] && xs[1..][n - 1..] == xs[n..];
    }
  }

  lemma DepsLaws()
    ensures forall d, k {:trigger PutDeps(d, k)} :: SizedDeps(d) ==> GetDeps(PutDeps(d, k)) == DepsBack(d, k)
    ensures forall s, m {:trigger GetDeps(s + m)} :: Stable(GetDeps(s), GetDeps(s + m), m)
  {
    hide GetU32, GetU64, PutCount, PutU64, GetMany, PutMany, GetDef, PutDef, GetState, PutState, AllOf;
    DepsLists();
    CountLaw();
    ReadsUndoWrites();
    ReadsAreStable();
  }

  predicate SizedEpisode(e: Episode) {
    SizedHandle(e.handle) && SizedStr(e.intent)
  }

  lemma EpisodeLaws()
    ensures forall e, k {:trigger PutEpisode(e, k)} :: SizedEpisode(e) ==> GetEpisode(PutEpisode(e, k)) == Ok(e, k)
    ensures forall s, m {:trigger GetEpisode(s + m)} :: Stable(GetEpisode(s), GetEpisode(s + m), m)
  {
    hide GetEpisodeHead, GetHandle, GetLineage, GetProgress, GetEpisodeTail;
    hide PutEpisodeHead, PutHandle, PutLineage, PutProgress, PutEpisodeTail;
    EpisodeHeadLaws();
    HandleLaws();
    LineageLaws();
    ProgressLaws();
    EpisodeTailLaws();
  }

  predicate SizedFront(f: Front) {
    SizedHeader(f.header) && SizedContract(f.contract) && SizedDeps(f.deps)
  }

  /** What reading back the front gives: its first bad part decides. */
  function FrontBack(f: Front, k: Bytes): Res<Front> {
    if !GoodContract(f.contract) then Reject
    else
      var (deps, k) :- DepsBack(f.deps, k);
      Ok(f.(deps := deps), k)
  }

  lemma FrontLaws()
    ensures forall f, k {:trigger PutFront(f, k)} :: SizedFront(f) ==> GetFront(PutFront(f, k)) == FrontBack(f, k)
    ensures forall s, m {:trigger GetFront(s + m)} :: Stable(GetFront(s), GetFront(s + m), m)
  {
    hide GetHeader, GetPolicy, GetContract, GetDeps, GetPriority, SizedContract, SizedDeps;
    hide PutHeader, PutPolicy, PutContract, PutDeps, PutPriority, GoodContract;
    HeaderLaws();
    PolicyLaws();
    ContractLaws();
    DepsLaws();
    PriorityLaws();
  }

  predicate SizedRear(r: Rear) {
    && SizedMarks(r.marks) && |r.episodes| < TWO32 && |r.history| < TWO32
    && AllOf(r.episodes, SizedEpisode) && AllOf(r.history, SizedRecord)
  }

  lemma RearLists()
    ensures forall xs: seq<Episode>, k {:trigger PutMany(PutEpisode, xs, k)} ::
              AllOf(xs, SizedEpisode) ==> GetMany(GetEpisode, |xs|, PutMany(PutEpisode, xs, k)) == Ok(xs, k)
    ensures forall n: nat, s, m {:trigger GetMany(GetEpisode, n, s + m)} ::
              Stable(GetMany(GetEpisode, n, s), GetMany(GetEpisode, n, s + m), m)
    ensures forall xs: seq<Record>, k {:trigger PutMany(PutRecord, xs, k)} ::
              AllOf(xs, SizedRecord) ==> GetMany(GetRecord, |xs|, PutMany(PutRecord, xs, k)) == Ok(xs, k)
    ensures forall n: nat, s, m {:trigger GetMany(GetRecord, n, s + m)} ::
              Stable(GetMany(GetRecord, n, s), GetMany(GetRecord, n, s + m), m)
  {
    EpisodeLaws();
    RecordLaws();
    hide GetEpisode, PutEpisode, GetRecord, PutRecord, GetMany, PutMany, SizedEpisode, SizedRecord;
    ListLaws(GetEpisode, PutEpisode, SizedEpisode, Any);
    ListLaws(GetRecord, PutRecord, SizedRecord, Any);
  }

  lemma RearLaws()
    ensures forall r, k {:trigger PutRear(r, k)} :: SizedRear(r) ==> GetRear(PutRear(r, k)) == Ok(r, k)
    ensures forall s, m {:trigger GetRear(s + m)} :: Stable(GetRear(s), GetRear(s + m), m)
  {
    hide GetProgress, GetCounters, GetMarks, GetU32, GetMany, GetEpisode, GetRecord, AllOf, SizedMarks;
    hide PutProgress, PutCounters, PutMarks, PutCount, PutMany, PutEpisode, PutRecord;
    ProgressLaws();
    CountersLaws();
    MarksLaws();
    RearLists();
    CountLaw();
    ReadsAreStable();
  }

  // ---- The payload ---------------------------------------------------------

  /** Every string and list is short enough for its length field. */
  predicate Sized(w: Workload) {
    SizedFront(FrontOf(w)) && SizedRear(RearOf(w))
  }

  /** What decode asks of a workload beyond its shape. */
  predicate Loadable(w: Workload) {
    w.ident.id != 0 && w.generation != 0 && w.revision != 0 && GoodContract(w.contract)
  }
}

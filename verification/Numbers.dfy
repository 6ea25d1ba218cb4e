/**
 * The numbers of the enumerators, as they appear in records and frames, and the edges of the lifecycle
 * between numbered states (include/workload_fabric/state.hpp, outcome.hpp, policy.hpp, resource.hpp and others).
 */
module Numbers {
  import opened Basics
  import opened Vocabulary
  import opened Binary

  function StateNumber(x: WorkloadState): byte {
    match x
    case CREATED => 0
    case VALIDATING => 1
    case BLOCKED => 2
    case WAITING_FOR_DEPENDENCIES => 3
    case WAITING_FOR_RESOURCES => 4
    case READY => 5
    case STARTING => 6
    case RUNNING => 7
    case DEGRADED => 8
    case SUSPEND_REQUESTED => 9
    case SUSPENDING => 10
    case SUSPENDED => 11
    case PREEMPTION_REQUESTED => 12
    case PREEMPTED => 13
    case MIGRATION_PENDING => 14
    case MIGRATING => 15
    case RECOVERING => 16
    case RESTART_PENDING => 17
    case CANCELLATION_REQUESTED => 18
    case CANCELLING => 19
    case COMPLETING => 20
    case COMPLETED => 21
    case FAILED_RECOVERABLE => 22
    case FAILED_TERMINAL => 23
    case CANCELLED => 24
    case SUPERSEDED => 25
  }

  function EpisodeNumber(x: EpisodeState): byte {
    match x
    case EP_PENDING => 0
    case EP_ADMITTED => 1
    case EP_RUNNING => 2
    case EP_SUSPENDED => 3
    case EP_PREEMPTED => 4
    case EP_MIGRATING => 5
    case EP_LOST => 6
    case EP_CANCELLED => 7
    case EP_COMPLETED => 8
    case EP_FAILED => 9
  }

  function OutcomeNumber(x: Outcome): byte {
    match x
    case ALLOW => 0
    case DEFER => 1
    case BLOCKED_DEPENDENCY => 2
    case BLOCKED_RESOURCE_CONTRACT => 3
    case REJECT_STALE_EPOCH => 4
    case REJECT_STALE_BOOT => 5
    case REJECT_STALE_WORKLOAD_GENERATION => 6
    case REJECT_STALE_EPISODE => 7
    case REJECT_STALE_RESOURCE_CONTRACT => 8
    case REJECT_STALE_DEPENDENCY => 9
    case REJECT_STALE_PRIORITY => 10
    case REJECT_STALE_PROGRESS => 11
    case REJECT_STALE_MIGRATION => 12
    case REJECT_TERMINAL => 13
    case REJECT_CANCELLED => 14
    case REJECT_RESTART_LIMIT => 15
    case REJECT_MIGRATION_INELIGIBLE => 16
    case REJECT_NOT_SUSPENDED => 17
    case REJECT_NOT_RESUMABLE => 18
    case REJECT_INVALID_TRANSITION => 19
    case REJECT_PROGRESS_DOUBLE_COUNT => 20
    case REJECT_PROGRESS_REGRESSION => 21
    case REJECT_RESOURCE_DOUBLE_RELEASE => 22
    case REJECT_DUPLICATE_WORKLOAD => 23
    case REJECT_WORKLOAD_NOT_FOUND => 24
    case REJECT_CROSS_WORKLOAD => 25
    case REJECT_IMMUTABLE_CONTRACT => 26
    case REJECT_PRIORITY_NOT_MUTABLE => 27
    case REJECT_NOT_BLOCKED => 28
    case REJECT_EPISODE_INELIGIBLE => 29
    case REJECT_NOT_RUNNABLE => 30
    case REJECT_UNKNOWN_DEPENDENCY => 31
    case REJECT_DEGRADED_POLICY => 32
    case REJECT_COMPLETION_POLICY => 33
    case REJECT_UNKNOWN => 34
    case REVALIDATION_REQUIRED => 35
    case UNKNOWN => 36
  }

  function RestartKindNumber(x: RestartKind): byte {
    match x
    case NEVER => 0
    case ON_KNOWN_FAILURE => 1
    case ON_WORKER_LOSS => 2
    case ON_INFRASTRUCTURE_FAILURE => 3
    case ON_AMBIGUOUS_EXECUTION => 4
    case ALWAYS_WITH_LIMIT => 5
    case MANUAL_ONLY => 6
  }

  function CompletionKindNumber(x: CompletionKind): byte {
    match x
    case SINGLE_RESULT => 0
    case ALL_PHASES => 1
    case REQUIRED_UNITS => 2
    case EXPLICIT_FINALIZE => 3
  }

  function EligibilityNumber(x: MigrationEligibility): byte {
    match x
    case MIG_NONE => 0
    case MIG_PLAN_ONLY => 1
    case MIG_CHECKPOINT_AND_RESUME => 2
  }

  function RaceNumber(x: CancelRace): byte {
    match x
    case CANCEL_FIRST => 0
    case COMPLETION_FIRST => 1
  }

  function LevelNumber(x: NeedLevel): byte {
    match x
    case NEED_REQUIRED => 0
    case NEED_PREFERRED => 1
    case NEED_OPTIONAL => 2
    case NEED_PROHIBITED => 3
  }

  function ResourceNumber(x: ResourceKind): byte {
    match x
    case ACCELERATOR_COUNT => 0
    case ACCELERATOR_CAPABILITY_CLASS => 1
    case DEVICE_MEMORY => 2
    case HOST_MEMORY => 3
    case PINNED_MEMORY => 4
    case CPU_CAPACITY => 5
    case STORAGE => 6
    case TRANSFER_BANDWIDTH => 7
    case NETWORK_REQUIREMENT => 8
    case MODEL_RESIDENCY => 9
    case LOCALITY_CONSTRAINT => 10
    case EXECUTION_CONCURRENCY => 11
    case DEADLINE_SLO_CLASS => 12
    case MAX_RESTART_COUNT => 13
    case MAX_RECOVERY_DURATION => 14
    case CHECKPOINT_REQUIREMENT => 15
    case MIGRATION_ELIGIBILITY => 16
  }

  function GrantNumber(x: GrantStatus): byte {
    match x
    case GRANT_REQUESTED => 0
    case GRANT_GRANTED => 1
    case GRANT_BOUND => 2
    case GRANT_RELEASED => 3
    case GRANT_STALE => 4
    case GRANT_EXPIRED => 5
  }

  function NeedNumber(x: DependencyRequirement): byte {
    match x
    case DEP_REQUIRED => 0
    case DEP_OPTIONAL => 1
  }

  function ReadyNumber(x: DependencyReady): byte {
    match x
    case WHEN_COMPLETED => 0
    case WHEN_READY => 1
    case WHEN_ARTIFACT_READY => 2
  }

  function StatusNumber(x: DependencyStatus): byte {
    match x
    case DEP_PENDING => 0
    case DEP_SATISFIED => 1
    case DEP_FAILED => 2
    case DEP_INVALIDATED => 3
    case DEP_STALE => 4
  }

  function TierNumber(x: PriorityTier): byte {
    match x
    case LOWEST => 0
    case LOW => 1
    case NORMAL => 2
    case HIGH => 3
    case CRITICAL => 4
    case SYSTEM => 5
  }

  function TotalKindNumber(x: TotalKind): byte {
    match x
    case TOTAL_KNOWN => 0
    case TOTAL_UNKNOWN => 1
  }

  function ProvenanceNumber(x: Provenance): byte {
    match x
    case DURABLE_KNOWN => 0
    case RECONSTRUCTED => 1
    case ESTIMATED => 2
    case UNAVAILABLE => 3
  }

  function TypeNumber(x: MsgType): byte {
    match x
    case HELLO => 0
    case REGISTER => 1
    case DISPATCH => 2
    case PROGRESS => 3
    case COMPLETE => 4
    case CANCEL => 5
    case SHUTDOWN => 6
    case PING => 7
  }

  // ---- The lists of the codec follow the numbers ---------------------------

  /** In a numbered list, the index of an element is its number. */
  lemma IndexIsNumber<T(!new)>(all: seq<T>, number: T -> byte)
    requires forall x: T {:trigger number(x)} :: number(x) < |all| && all[number(x)] == x
    requires forall i | 0 <= i < |all| :: number(all[i]) == i
    ensures forall x: T {:trigger IndexOf(all, x)} :: IndexOf(all, x) == number(x)
  {
    forall x: T ensures IndexOf(all, x) == number(x) {
      assert all[number(x)] == x;
      assert number(all[IndexOf(all, x)]) == IndexOf(all, x);
    }
  }

  /** The list gives each enumerator the place that its number names. */
  ghost predicate Numbered<T(!new)>(all: seq<T>, number: T -> byte) {
    && (forall x: T {:trigger number(x)} :: number(x) < |all| && all[number(x)] == x)
    && (forall x: T {:trigger IndexOf(all, x)} :: IndexOf(all, x) == number(x))
    && (forall i | 0 <= i < |all| :: number(all[i]) == i)
  }

  /** A byte is read as the enumerator of that number, and past the last one it is rejected. */
  lemma ByteNames<T(!new)>(all: seq<T>, number: T -> byte, b: byte, k: Bytes)
    requires Numbered(all, number)
    ensures var r := GetEnum(all, [b] + k);
            if b < |all| then r.Ok? && number(r.value) == b && r.rest == k else r.Reject?
  {
    assert ([b] + k)[1..] == k;
  }

  lemma StatePlaces(x: WorkloadState)
    ensures StateNumber(x) < |ALL_WORKLOAD_STATES| && ALL_WORKLOAD_STATES[StateNumber(x)] == x
  {
  }

  lemma StatesInOrder(i: nat)
    requires i < |ALL_WORKLOAD_STATES|
    ensures StateNumber(ALL_WORKLOAD_STATES[i]) == i
  {
  }

  lemma WorkloadStateNumbers()
    ensures |ALL_WORKLOAD_STATES| == 26 && Numbered(ALL_WORKLOAD_STATES, StateNumber)
  {
    assert |ALL_WORKLOAD_STATES| == 26;
    hide ALL_WORKLOAD_STATES, StateNumber;
    forall x: WorkloadState ensures StateNumber(x) < 26 && ALL_WORKLOAD_STATES[StateNumber(x)] == x {
      StatePlaces(x);
    }
    forall i: nat | i < 26 ensures StateNumber(ALL_WORKLOAD_STATES[i]) == i {
      StatesInOrder(i);
    }
    IndexIsNumber(ALL_WORKLOAD_STATES, StateNumber);
  }

  lemma EpisodeStateNumbers()
    ensures |ALL_EPISODE_STATES| == 10 && Numbered(ALL_EPISODE_STATES, EpisodeNumber)
  {
    forall x: EpisodeState ensures EpisodeNumber(x) < 10 && ALL_EPISODE_STATES[EpisodeNumber(x)] == x {
    }
    IndexIsNumber(ALL_EPISODE_STATES, EpisodeNumber);
  }

  lemma EarlyOutcomesInOrder(i: nat)
    requires i < 13
    ensures i < |ALL_OUTCOMES| && OutcomeNumber(ALL_OUTCOMES[i]) == i
  {
  }

  lemma MiddleOutcomesInOrder(i: nat)
    requires 13 <= i < 25
    ensures i < |ALL_OUTCOMES| && OutcomeNumber(ALL_OUTCOMES[i]) == i
  {
  }

  lemma LateOutcomesInOrder(i: nat)
    requires 25 <= i < |ALL_OUTCOMES|
    ensures i < |ALL_OUTCOMES| && OutcomeNumber(ALL_OUTCOMES[i]) == i
  {
  }

  lemma EarlyOutcomePlaces(x: Outcome)
    requires OutcomeNumber(x) < 13
    ensures OutcomeNumber(x) < |ALL_OUTCOMES| == 37 && ALL_OUTCOMES[OutcomeNumber(x)] == x
  {
  }

  lemma MiddleOutcomePlaces(x: Outcome)
    requires 13 <= OutcomeNumber(x) < 25
    ensures OutcomeNumber(x) < |ALL_OUTCOMES| == 37 && ALL_OUTCOMES[OutcomeNumber(x)] == x
  {
  }

  lemma LateOutcomePlaces(x: Outcome)
    requires 25 <= OutcomeNumber(x)
    ensures OutcomeNumber(x) < |ALL_OUTCOMES| == 37 && ALL_OUTCOMES[OutcomeNumber(x)] == x
  {
  }

  lemma OutcomeNumbers()
    ensures |ALL_OUTCOMES| == 37 && Numbered(ALL_OUTCOMES, OutcomeNumber)
  {
    assert |ALL_OUTCOMES| == 37;
    hide ALL_OUTCOMES, OutcomeNumber;
    forall x: Outcome ensures OutcomeNumber(x) < |ALL_OUTCOMES| && ALL_OUTCOMES[OutcomeNumber(x)] == x {
      if OutcomeNumber(x) < 13 {
        EarlyOutcomePlaces(x);
      } else if OutcomeNumber(x) < 25 {
        MiddleOutcomePlaces(x);
      } else {
        LateOutcomePlaces(x);
      }
    }
    forall i: nat | i < |ALL_OUTCOMES| ensures OutcomeNumber(ALL_OUTCOMES[i]) == i {
      if i < 13 {
        EarlyOutcomesInOrder(i);
      } else if i < 25 {
        MiddleOutcomesInOrder(i);
      } else {
        LateOutcomesInOrder(i);
      }
    }
    IndexIsNumber(ALL_OUTCOMES, OutcomeNumber);
  }

  lemma RestartKindNumbers()
    ensures |ALL_RESTART_KINDS| == 7 && Numbered(ALL_RESTART_KINDS, RestartKindNumber)
  {
    forall x: RestartKind ensures RestartKindNumber(x) < 7 && ALL_RESTART_KINDS[RestartKindNumber(x)] == x {
    }
    IndexIsNumber(ALL_RESTART_KINDS, RestartKindNumber);
  }

  lemma CompletionKindNumbers()
    ensures |ALL_COMPLETION_KINDS| == 4 && Numbered(ALL_COMPLETION_KINDS, CompletionKindNumber)
  {
    forall x: CompletionKind ensures CompletionKindNumber(x) < 4 && ALL_COMPLETION_KINDS[CompletionKindNumber(x)] == x {
    }
    IndexIsNumber(ALL_COMPLETION_KINDS, CompletionKindNumber);
  }

  lemma MigrationEligibilityNumbers()
    ensures |ALL_MIGRATION_ELIGIBILITIES| == 3 && Numbered(ALL_MIGRATION_ELIGIBILITIES, EligibilityNumber)
  {
    forall x: MigrationEligibility ensures EligibilityNumber(x) < 3 && ALL_MIGRATION_ELIGIBILITIES[EligibilityNumber(x)] == x {
    }
    IndexIsNumber(ALL_MIGRATION_ELIGIBILITIES, EligibilityNumber);
  }

  lemma CancelRaceNumbers()
    ensures |ALL_CANCEL_RACES| == 2 && Numbered(ALL_CANCEL_RACES, RaceNumber)
  {
    forall x: CancelRace ensures RaceNumber(x) < 2 && ALL_CANCEL_RACES[RaceNumber(x)] == x {
    }
    IndexIsNumber(ALL_CANCEL_RACES, RaceNumber);
  }

  lemma NeedLevelNumbers()
    ensures |ALL_NEED_LEVELS| == 4 && Numbered(ALL_NEED_LEVELS, LevelNumber)
  {
    forall x: NeedLevel ensures LevelNumber(x) < 4 && ALL_NEED_LEVELS[LevelNumber(x)] == x {
    }
    IndexIsNumber(ALL_NEED_LEVELS, LevelNumber);
  }

  lemma ResourceKindNumbers()
    ensures |ALL_RESOURCE_KINDS| == 17 && Numbered(ALL_RESOURCE_KINDS, ResourceNumber)
  {
    forall x: ResourceKind ensures ResourceNumber(x) < 17 && ALL_RESOURCE_KINDS[ResourceNumber(x)] == x {
    }
    IndexIsNumber(ALL_RESOURCE_KINDS, ResourceNumber);
  }

  lemma GrantStatusNumbers()
    ensures |ALL_GRANT_STATUSES| == 6 && Numbered(ALL_GRANT_STATUSES, GrantNumber)
  {
    forall x: GrantStatus ensures GrantNumber(x) < 6 && ALL_GRANT_STATUSES[GrantNumber(x)] == x {
    }
    IndexIsNumber(ALL_GRANT_STATUSES, GrantNumber);
  }

  lemma DependencyRequirementNumbers()
    ensures |ALL_DEPENDENCY_REQUIREMENTS| == 2 && Numbered(ALL_DEPENDENCY_REQUIREMENTS, NeedNumber)
  {
    forall x: DependencyRequirement ensures NeedNumber(x) < 2 && ALL_DEPENDENCY_REQUIREMENTS[NeedNumber(x)] == x {
    }
    IndexIsNumber(ALL_DEPENDENCY_REQUIREMENTS, NeedNumber);
  }

  lemma DependencyReadyNumbers()
    ensures |ALL_DEPENDENCY_READY| == 3 && Numbered(ALL_DEPENDENCY_READY, ReadyNumber)
  {
    forall x: DependencyReady ensures ReadyNumber(x) < 3 && ALL_DEPENDENCY_READY[ReadyNumber(x)] == x {
    }
    IndexIsNumber(ALL_DEPENDENCY_READY, ReadyNumber);
  }

  lemma DependencyStatusNumbers()
    ensures |ALL_DEPENDENCY_STATUSES| == 5 && Numbered(ALL_DEPENDENCY_STATUSES, StatusNumber)
  {
    forall x: DependencyStatus ensures StatusNumber(x) < 5 && ALL_DEPENDENCY_STATUSES[StatusNumber(x)] == x {
    }
    IndexIsNumber(ALL_DEPENDENCY_STATUSES, StatusNumber);
  }

  lemma PriorityTierNumbers()
    ensures |ALL_PRIORITY_TIERS| == 6 && Numbered(ALL_PRIORITY_TIERS, TierNumber)
  {
    forall x: PriorityTier ensures TierNumber(x) < 6 && ALL_PRIORITY_TIERS[TierNumber(x)] == x {
    }
    IndexIsNumber(ALL_PRIORITY_TIERS, TierNumber);
  }

  lemma TotalKindNumbers()
    ensures |ALL_TOTAL_KINDS| == 2 && Numbered(ALL_TOTAL_KINDS, TotalKindNumber)
  {
    forall x: TotalKind ensures TotalKindNumber(x) < 2 && ALL_TOTAL_KINDS[TotalKindNumber(x)] == x {
    }
    IndexIsNumber(ALL_TOTAL_KINDS, TotalKindNumber);
  }

  lemma ProvenanceNumbers()
    ensures |ALL_PROVENANCES| == 4 && Numbered(ALL_PROVENANCES, ProvenanceNumber)
  {
    forall x: Provenance ensures ProvenanceNumber(x) < 4 && ALL_PROVENANCES[ProvenanceNumber(x)] == x {
    }
    IndexIsNumber(ALL_PROVENANCES, ProvenanceNumber);
  }

  lemma MsgTypeNumbers()
    ensures |ALL_MSG_TYPES| == 8 && Numbered(ALL_MSG_TYPES, TypeNumber)
  {
    forall x: MsgType ensures TypeNumber(x) < 8 && ALL_MSG_TYPES[TypeNumber(x)] == x {
    }
    IndexIsNumber(ALL_MSG_TYPES, TypeNumber);
  }

  /** The classes of states, by number. */
  lemma ClassesOfStates(s: WorkloadState)
    ensures IsTerminal(s) <==> StateNumber(s) in {21, 23, 24, 25}
    ensures IsCancelling(s) <==> StateNumber(s) in {18, 19}
    ensures IsActivelyRunning(s) <==> StateNumber(s) in {6, 7, 8}
  {
  }

  // ---- The edge table --------------------------------------------------------

  /** The states one edge away from state number `from`. */
  function Successors(from: int): set<int> {
    match from
    case 0 => {1, 2, 3, 24, 21}
    case 1 => {0, 2, 3, 4, 5, 23, 24}
    case 2 => {1, 3, 4, 5, 24}
    case 3 => {1, 2, 4, 5, 24}
    case 4 => {1, 2, 3, 5, 24}
    case 5 => {6, 4, 3, 24}
    case 6 => {7, 5, 17, 22, 18}
    case 7 => {8, 20, 9, 12, 14, 18, 16, 22, 23}
    case 8 => {7, 20, 9, 12, 14, 18, 16, 22}
    case 9 => {10, 7, 18, 22}
    case 10 => {11, 7, 18, 22}
    case 11 => {5, 7, 18, 25, 22}
    case 12 => {13, 7, 9, 18}
    case 13 => {7, 5, 17, 25, 18}
    case 14 => {15, 7, 9, 18, 22}
    case 15 => {7, 16, 5, 17, 25, 18}
    case 16 => {7, 17, 5, 22, 23, 18}
    case 17 => {5, 7, 23, 18}
    case 18 => {19, 24, 20}
    case 19 => {24, 21}
    case 20 => {21, 22, 23, 24}
    case _ => {}
  }

  lemma EdgesOfGates(a: WorkloadState, b: WorkloadState)
    requires StateNumber(a) < 4
    ensures CanTransition(a, b) <==> StateNumber(b) as int in Successors(StateNumber(a))
  {
  }

  lemma EdgesBeforeRunning(a: WorkloadState, b: WorkloadState)
    requires 4 <= StateNumber(a) < 7
    ensures CanTransition(a, b) <==> StateNumber(b) as int in Successors(StateNumber(a))
  {
  }

  lemma EdgesWhileRunning(a: WorkloadState, b: WorkloadState)
    requires 7 <= StateNumber(a) < 13
    ensures CanTransition(a, b) <==> StateNumber(b) as int in Successors(StateNumber(a))
  {
  }

  lemma EdgesAfterRunning(a: WorkloadState, b: WorkloadState)
    requires 13 <= StateNumber(a) < 17
    ensures CanTransition(a, b) <==> StateNumber(b) as int in Successors(StateNumber(a))
  {
  }

  lemma EdgesTowardsTheEnd(a: WorkloadState, b: WorkloadState)
    requires 17 <= StateNumber(a)
    ensures CanTransition(a, b) <==> StateNumber(b) as int in Successors(StateNumber(a))
  {
  }

  /** A transition is an edge between numbers of the table, and every edge of the table is a transition. */
  lemma TransitionsAreTheEdges(a: WorkloadState, b: WorkloadState)
    ensures CanTransition(a, b) <==> StateNumber(b) as int in Successors(StateNumber(a))
  {
    hide CanTransition, Successors;
    if StateNumber(a) < 4 {
      EdgesOfGates(a, b);
    } else if StateNumber(a) < 7 {
      EdgesBeforeRunning(a, b);
    } else if StateNumber(a) < 13 {
      EdgesWhileRunning(a, b);
    } else if StateNumber(a) < 17 {
      EdgesAfterRunning(a, b);
    } else {
      EdgesTowardsTheEnd(a, b);
    }
  }
}

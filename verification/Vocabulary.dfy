/** The closed vocabularies of the library. Each ALL_ constant lists an enumeration in numeric order. */
module Vocabulary {
  datatype WorkloadState =
    | CREATED | VALIDATING | BLOCKED | WAITING_FOR_DEPENDENCIES | WAITING_FOR_RESOURCES
    | READY | STARTING | RUNNING | DEGRADED
    | SUSPEND_REQUESTED | SUSPENDING | SUSPENDED | PREEMPTION_REQUESTED | PREEMPTED
    | MIGRATION_PENDING | MIGRATING | RECOVERING | RESTART_PENDING
    | CANCELLATION_REQUESTED | CANCELLING | COMPLETING
    | COMPLETED | FAILED_RECOVERABLE | FAILED_TERMINAL | CANCELLED | SUPERSEDED

  const ALL_WORKLOAD_STATES: seq<WorkloadState> :=
    [CREATED, VALIDATING, BLOCKED, WAITING_FOR_DEPENDENCIES, WAITING_FOR_RESOURCES,
     READY, STARTING, RUNNING, DEGRADED,
     SUSPEND_REQUESTED, SUSPENDING, SUSPENDED, PREEMPTION_REQUESTED, PREEMPTED,
     MIGRATION_PENDING, MIGRATING, RECOVERING, RESTART_PENDING,
     CANCELLATION_REQUESTED, CANCELLING, COMPLETING,
     COMPLETED, FAILED_RECOVERABLE, FAILED_TERMINAL, CANCELLED, SUPERSEDED]

  datatype EpisodeState =
    | EP_PENDING | EP_ADMITTED | EP_RUNNING | EP_SUSPENDED | EP_PREEMPTED
    | EP_MIGRATING | EP_LOST | EP_CANCELLED | EP_COMPLETED | EP_FAILED

  const ALL_EPISODE_STATES: seq<EpisodeState> :=
    [EP_PENDING, EP_ADMITTED, EP_RUNNING, EP_SUSPENDED, EP_PREEMPTED,
     EP_MIGRATING, EP_LOST, EP_CANCELLED, EP_COMPLETED, EP_FAILED]

  datatype Outcome =
    | ALLOW | DEFER | BLOCKED_DEPENDENCY | BLOCKED_RESOURCE_CONTRACT
    | REJECT_STALE_EPOCH | REJECT_STALE_BOOT | REJECT_STALE_WORKLOAD_GENERATION | REJECT_STALE_EPISODE
    | REJECT_STALE_RESOURCE_CONTRACT | REJECT_STALE_DEPENDENCY | REJECT_STALE_PRIORITY
    | REJECT_STALE_PROGRESS | REJECT_STALE_MIGRATION | REJECT_TERMINAL | REJECT_CANCELLED
    | REJECT_RESTART_LIMIT | REJECT_MIGRATION_INELIGIBLE | REJECT_NOT_SUSPENDED | REJECT_NOT_RESUMABLE
    | REJECT_INVALID_TRANSITION | REJECT_PROGRESS_DOUBLE_COUNT | REJECT_PROGRESS_REGRESSION
    | REJECT_RESOURCE_DOUBLE_RELEASE | REJECT_DUPLICATE_WORKLOAD | REJECT_WORKLOAD_NOT_FOUND
    | REJECT_CROSS_WORKLOAD | REJECT_IMMUTABLE_CONTRACT | REJECT_PRIORITY_NOT_MUTABLE
    | REJECT_NOT_BLOCKED | REJECT_EPISODE_INELIGIBLE | REJECT_NOT_RUNNABLE | REJECT_UNKNOWN_DEPENDENCY
    | REJECT_DEGRADED_POLICY | REJECT_COMPLETION_POLICY | REJECT_UNKNOWN | REVALIDATION_REQUIRED | UNKNOWN

  const ALL_OUTCOMES: seq<Outcome> :=
    [ALLOW, DEFER, BLOCKED_DEPENDENCY, BLOCKED_RESOURCE_CONTRACT,
     REJECT_STALE_EPOCH, REJECT_STALE_BOOT, REJECT_STALE_WORKLOAD_GENERATION, REJECT_STALE_EPISODE,
     REJECT_STALE_RESOURCE_CONTRACT, REJECT_STALE_DEPENDENCY, REJECT_STALE_PRIORITY,
     REJECT_STALE_PROGRESS, REJECT_STALE_MIGRATION, REJECT_TERMINAL, REJECT_CANCELLED,
     REJECT_RESTART_LIMIT, REJECT_MIGRATION_INELIGIBLE, REJECT_NOT_SUSPENDED, REJECT_NOT_RESUMABLE,
     REJECT_INVALID_TRANSITION, REJECT_PROGRESS_DOUBLE_COUNT, REJECT_PROGRESS_REGRESSION,
     REJECT_RESOURCE_DOUBLE_RELEASE, REJECT_DUPLICATE_WORKLOAD, REJECT_WORKLOAD_NOT_FOUND,
     REJECT_CROSS_WORKLOAD, REJECT_IMMUTABLE_CONTRACT, REJECT_PRIORITY_NOT_MUTABLE,
     REJECT_NOT_BLOCKED, REJECT_EPISODE_INELIGIBLE, REJECT_NOT_RUNNABLE, REJECT_UNKNOWN_DEPENDENCY,
     REJECT_DEGRADED_POLICY, REJECT_COMPLETION_POLICY, REJECT_UNKNOWN, REVALIDATION_REQUIRED, UNKNOWN]

  datatype RestartKind =
    | NEVER | ON_KNOWN_FAILURE | ON_WORKER_LOSS | ON_INFRASTRUCTURE_FAILURE
    | ON_AMBIGUOUS_EXECUTION | ALWAYS_WITH_LIMIT | MANUAL_ONLY

  const ALL_RESTART_KINDS: seq<RestartKind> :=
    [NEVER, ON_KNOWN_FAILURE, ON_WORKER_LOSS, ON_INFRASTRUCTURE_FAILURE,
     ON_AMBIGUOUS_EXECUTION, ALWAYS_WITH_LIMIT, MANUAL_ONLY]

  datatype CompletionKind = SINGLE_RESULT | ALL_PHASES | REQUIRED_UNITS | EXPLICIT_FINALIZE

  const ALL_COMPLETION_KINDS: seq<CompletionKind> :=
    [SINGLE_RESULT, ALL_PHASES, REQUIRED_UNITS, EXPLICIT_FINALIZE]

  datatype MigrationEligibility = MIG_NONE | MIG_PLAN_ONLY | MIG_CHECKPOINT_AND_RESUME

  const ALL_MIGRATION_ELIGIBILITIES: seq<MigrationEligibility> :=
    [MIG_NONE, MIG_PLAN_ONLY, MIG_CHECKPOINT_AND_RESUME]

  datatype CancelRace = CANCEL_FIRST | COMPLETION_FIRST

  const ALL_CANCEL_RACES: seq<CancelRace> := [CANCEL_FIRST, COMPLETION_FIRST]

  datatype NeedLevel = NEED_REQUIRED | NEED_PREFERRED | NEED_OPTIONAL | NEED_PROHIBITED

  const ALL_NEED_LEVELS: seq<NeedLevel> := [NEED_REQUIRED, NEED_PREFERRED, NEED_OPTIONAL, NEED_PROHIBITED]

  datatype ResourceKind =
    | ACCELERATOR_COUNT | ACCELERATOR_CAPABILITY_CLASS | DEVICE_MEMORY | HOST_MEMORY | PINNED_MEMORY
    | CPU_CAPACITY | STORAGE | TRANSFER_BANDWIDTH | NETWORK_REQUIREMENT | MODEL_RESIDENCY
    | LOCALITY_CONSTRAINT | EXECUTION_CONCURRENCY | DEADLINE_SLO_CLASS | MAX_RESTART_COUNT
    | MAX_RECOVERY_DURATION | CHECKPOINT_REQUIREMENT | MIGRATION_ELIGIBILITY

  const ALL_RESOURCE_KINDS: seq<ResourceKind> :=
    [ACCELERATOR_COUNT, ACCELERATOR_CAPABILITY_CLASS, DEVICE_MEMORY, HOST_MEMORY, PINNED_MEMORY,
     CPU_CAPACITY, STORAGE, TRANSFER_BANDWIDTH, NETWORK_REQUIREMENT, MODEL_RESIDENCY,
     LOCALITY_CONSTRAINT, EXECUTION_CONCURRENCY, DEADLINE_SLO_CLASS, MAX_RESTART_COUNT,
     MAX_RECOVERY_DURATION, CHECKPOINT_REQUIREMENT, MIGRATION_ELIGIBILITY]

  datatype GrantStatus = GRANT_REQUESTED | GRANT_GRANTED | GRANT_BOUND | GRANT_RELEASED | GRANT_STALE | GRANT_EXPIRED

  const ALL_GRANT_STATUSES: seq<GrantStatus> :=
    [GRANT_REQUESTED, GRANT_GRANTED, GRANT_BOUND, GRANT_RELEASED, GRANT_STALE, GRANT_EXPIRED]

  datatype DependencyRequirement = DEP_REQUIRED | DEP_OPTIONAL

  const ALL_DEPENDENCY_REQUIREMENTS: seq<DependencyRequirement> := [DEP_REQUIRED, DEP_OPTIONAL]

  datatype DependencyReady = WHEN_COMPLETED | WHEN_READY | WHEN_ARTIFACT_READY

  const ALL_DEPENDENCY_READY: seq<DependencyReady> := [WHEN_COMPLETED, WHEN_READY, WHEN_ARTIFACT_READY]

  datatype DependencyStatus = DEP_PENDING | DEP_SATISFIED | DEP_FAILED | DEP_INVALIDATED | DEP_STALE

  const ALL_DEPENDENCY_STATUSES: seq<DependencyStatus> :=
    [DEP_PENDING, DEP_SATISFIED, DEP_FAILED, DEP_INVALIDATED, DEP_STALE]

  datatype PriorityTier = LOWEST | LOW | NORMAL | HIGH | CRITICAL | SYSTEM

  const ALL_PRIORITY_TIERS: seq<PriorityTier> := [LOWEST, LOW, NORMAL, HIGH, CRITICAL, SYSTEM]

  datatype TotalKind = TOTAL_KNOWN | TOTAL_UNKNOWN

  const ALL_TOTAL_KINDS: seq<TotalKind> := [TOTAL_KNOWN, TOTAL_UNKNOWN]

  datatype Provenance = DURABLE_KNOWN | RECONSTRUCTED | ESTIMATED | UNAVAILABLE

  const ALL_PROVENANCES: seq<Provenance> := [DURABLE_KNOWN, RECONSTRUCTED, ESTIMATED, UNAVAILABLE]

  datatype MsgType = HELLO | REGISTER | DISPATCH | PROGRESS | COMPLETE | CANCEL | SHUTDOWN | PING

  const ALL_MSG_TYPES: seq<MsgType> := [HELLO, REGISTER, DISPATCH, PROGRESS, COMPLETE, CANCEL, SHUTDOWN, PING]

  predicate IsTerminal(s: WorkloadState) {
    s.COMPLETED? || s.FAILED_TERMINAL? || s.CANCELLED? || s.SUPERSEDED?
  }

  predicate IsCancelling(s: WorkloadState) {
    s.CANCELLATION_REQUESTED? || s.CANCELLING?
  }

  predicate IsActivelyRunning(s: WorkloadState) {
    s.RUNNING? || s.DEGRADED? || s.STARTING?
  }

  /** The edge table of the lifecycle, grouped by source state. */
  predicate CanTransition(from: WorkloadState, to: WorkloadState) {
    match from
    case CREATED => to.VALIDATING? || to.BLOCKED? || to.WAITING_FOR_DEPENDENCIES? || to.CANCELLED? || to.COMPLETED?
    case VALIDATING => to.CREATED? || to.BLOCKED? || to.WAITING_FOR_DEPENDENCIES? || to.WAITING_FOR_RESOURCES?
                       || to.READY? || to.FAILED_TERMINAL? || to.CANCELLED?
    case BLOCKED => to.VALIDATING? || to.WAITING_FOR_DEPENDENCIES? || to.WAITING_FOR_RESOURCES? || to.READY? || to.CANCELLED?
    case WAITING_FOR_DEPENDENCIES => to.VALIDATING? || to.BLOCKED? || to.WAITING_FOR_RESOURCES? || to.READY? || to.CANCELLED?
    case WAITING_FOR_RESOURCES => to.VALIDATING? || to.BLOCKED? || to.WAITING_FOR_DEPENDENCIES? || to.READY? || to.CANCELLED?
    case READY => to.STARTING? || to.WAITING_FOR_RESOURCES? || to.WAITING_FOR_DEPENDENCIES? || to.CANCELLED?
    case STARTING => to.RUNNING? || to.READY? || to.RESTART_PENDING? || to.FAILED_RECOVERABLE? || to.CANCELLATION_REQUESTED?
    case RUNNING => to.DEGRADED? || to.COMPLETING? || to.SUSPEND_REQUESTED? || to.PREEMPTION_REQUESTED?
                    || to.MIGRATION_PENDING? || to.CANCELLATION_REQUESTED? || to.RECOVERING?
                    || to.FAILED_RECOVERABLE? || to.FAILED_TERMINAL?
    case DEGRADED => to.RUNNING? || to.COMPLETING? || to.SUSPEND_REQUESTED? || to.PREEMPTION_REQUESTED?
                     || to.MIGRATION_PENDING? || to.CANCELLATION_REQUESTED? || to.RECOVERING? || to.FAILED_RECOVERABLE?
    case SUSPEND_REQUESTED => to.SUSPENDING? || to.RUNNING? || to.CANCELLATION_REQUESTED? || to.FAILED_RECOVERABLE?
    case SUSPENDING => to.SUSPENDED? || to.RUNNING? || to.CANCELLATION_REQUESTED? || to.FAILED_RECOVERABLE?
    case SUSPENDED => to.READY? || to.RUNNING? || to.CANCELLATION_REQUESTED? || to.SUPERSEDED? || to.FAILED_RECOVERABLE?
    case PREEMPTION_REQUESTED => to.PREEMPTED? || to.RUNNING? || to.SUSPEND_REQUESTED? || to.CANCELLATION_REQUESTED?
    case PREEMPTED => to.RUNNING? || to.READY? || to.RESTART_PENDING? || to.SUPERSEDED? || to.CANCELLATION_REQUESTED?
    case MIGRATION_PENDING => to.MIGRATING? || to.RUNNING? || to.SUSPEND_REQUESTED? || to.CANCELLATION_REQUESTED? || to.FAILED_RECOVERABLE?
    case MIGRATING => to.RUNNING? || to.RECOVERING? || to.READY? || to.RESTART_PENDING? || to.SUPERSEDED? || to.CANCELLATION_REQUESTED?
    case RECOVERING => to.RUNNING? || to.RESTART_PENDING? || to.READY? || to.FAILED_RECOVERABLE? || to.FAILED_TERMINAL?
                       || to.CANCELLATION_REQUESTED?
    case RESTART_PENDING => to.READY? || to.RUNNING? || to.FAILED_TERMINAL? || to.CANCELLATION_REQUESTED?
    case CANCELLATION_REQUESTED => to.CANCELLING? || to.CANCELLED? || to.COMPLETING?
    case CANCELLING => to.CANCELLED? || to.COMPLETED?
    case COMPLETING => to.COMPLETED? || to.FAILED_RECOVERABLE? || to.FAILED_TERMINAL? || to.CANCELLED?
    case COMPLETED => false
    case FAILED_RECOVERABLE => false
    case FAILED_TERMINAL => false
    case CANCELLED => false
    case SUPERSEDED => false
  }
}

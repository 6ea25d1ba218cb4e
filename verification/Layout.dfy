/**
 * The record of a workload byte by byte: one flat list of its fields in order, with every number of the format
 * as a literal (src/persistence.cpp). The nested writers and the tables of the codec are proved to give it.
 */
module Layout {
  import opened Basics
  import opened Vocabulary
  import opened ProgressModel
  import opened Dependencies
  import opened Resources
  import opened Model
  import opened Binary
  import opened Hash
  import opened Codec
  import opened Records
  import opened Numbers

  // ---- Fields --------------------------------------------------------------

  /** Four bytes, highest first. */
  function Word(v: u32): Bytes {
    [v / 0x100_0000, v / 0x1_0000 % 0x100, v / 0x100 % 0x100, v % 0x100]
  }

  /** Eight bytes, highest first. */
  function Long(v: u64): Bytes {
    [v / 0x100_0000_0000_0000, v / 0x1_0000_0000_0000 % 0x100, v / 0x100_0000_0000 % 0x100, v / 0x1_0000_0000 % 0x100,
     v / 0x100_0000 % 0x100, v / 0x1_0000 % 0x100, v / 0x100 % 0x100, v % 0x100]
  }

  function Flag(b: bool): Bytes {
    if b then [1] else [0]
  }

  function Text(s: Bytes): Bytes {
    Long(|s| % 0x1_0000_0000_0000_0000) + s
  }

  /** A 32-bit signed number, extended to 64 bits in two's complement. */
  function Signed(v: i32): Bytes {
    Long(if v < 0 then 0x1_0000_0000_0000_0000 + v else v)
  }

  /** The number of items in 32 bits, then the items one after the other. */
  function Items<T>(xs: seq<T>, item: T -> Bytes): Bytes {
    Word(|xs| % 0x1_0000_0000) + InTurn(xs, item)
  }

  function InTurn<T>(xs: seq<T>, item: T -> Bytes): Bytes {
    if xs == [] then [] else item(xs[0]) + InTurn(xs[1..], item)
  }

  // ---- The payload ---------------------------------------------------------

  function RequirementBytes(r: Requirement): Bytes {
    [ResourceNumber(r.kind)] + [LevelNumber(r.level)] + Long(r.minValue) + Long(r.maxValue) + Text(r.spec)
  }

  function BindingBytes(b: Binding): Bytes {
    [ResourceNumber(b.kind)] + Long(b.amount) + Text(b.qualifier)
  }

  function DefinitionBytes(d: DependencyDef): Bytes {
    Long(d.dependsOn) + [NeedNumber(d.requirement)] + [ReadyNumber(d.readyWhen)] + Text(d.artifactKey)
  }

  function DependencyBytes(d: DependencyState): Bytes {
    [StatusNumber(d.status)] + Long(d.observed) + Text(d.detail)
  }

  function ProgressBytes(p: Progress): Bytes {
    Long(p.completed) + [TotalKindNumber(p.totalKind)] + Long(p.total) + Long(p.checkpointed)
    + [ProvenanceNumber(p.provenance)] + Long(p.lastAuthoritativeGeneration) + Flag(p.monotonic)
  }

  function PlacementBytes(e: Episode): Bytes {
    Long(e.id) + Long(e.generation) + [EpisodeNumber(e.state)] + Long(e.owner) + Long(e.ownerGeneration)
    + Long(e.worker) + Long(e.boot)
  }

  function HandleBytes(h: Handle): Bytes {
    Long(h.worker) + Long(h.boot) + Long(h.attemptGeneration) + Text(h.intent)
  }

  function LineageBytes(l: Lineage): Bytes {
    Long(l.restartGeneration) + Long(l.recoveryGeneration) + Long(l.checkpoint) + Long(l.checkpointGeneration)
    + Long(l.migrationId) + Long(l.migrationGeneration)
  }

  function StandingBytes(e: Episode): Bytes {
    Text(e.intent) + Flag(e.authoritative) + Flag(e.failed) + Flag(e.cancelled) + Flag(e.completed) + Flag(e.workerLost)
  }

  function EpisodeBytes(e: Episode): Bytes {
    PlacementBytes(e) + HandleBytes(e.handle) + LineageBytes(e.lineage) + ProgressBytes(e.progress) + StandingBytes(e)
  }

  function RecordBytes(r: Record): Bytes {
    [StateNumber(r.from)] + [StateNumber(r.to)] + Long(r.generation) + Long(r.timestampMs) + Text(r.reason)
    + [OutcomeNumber(r.outcome)]
  }

  function RestartPolicyBytes(p: RestartPolicy): Bytes {
    [RestartKindNumber(p.kind)] + Word(p.maxRestarts) + Word(p.maxRecoverySeconds)
    + Flag(p.carryProgressForward) + Flag(p.carryCheckpoint)
  }

  function CompletionPolicyBytes(p: CompletionPolicy): Bytes {
    [CompletionKindNumber(p.kind)] + Word(p.requiredUnits) + Flag(p.requireDurableArtifact) + Flag(p.allowZeroWorkCompletion)
  }

  function MigrationPolicyBytes(p: MigrationPolicy): Bytes {
    [EligibilityNumber(p.eligibility)] + Flag(p.requireCheckpoint) + Flag(p.requireQuiescence) + Flag(p.allowLossy)
  }

  function SuspensionPolicyBytes(p: SuspensionPolicy): Bytes {
    Flag(p.allowed) + Flag(p.requireDurableState) + Word(p.maxSuspendedSeconds) + Flag(p.releaseResourcesWhileSuspended)
  }

  function PolicyBytes(p: Policy): Bytes {
    RestartPolicyBytes(p.restart) + CompletionPolicyBytes(p.completion) + MigrationPolicyBytes(p.migration)
    + SuspensionPolicyBytes(p.suspension) + [RaceNumber(p.cancelRace)] + Long(p.generation)
  }

  function HeaderBytes(w: Workload): Bytes {
    Long(w.ident.id) + Long(w.generation) + Long(w.revision) + [StateNumber(w.state)] + Text(w.ident.name) + Text(w.ident.intent)
  }

  function GrantBytes(g: Grant): Bytes {
    Long(g.contractId) + Long(g.contractGeneration) + [GrantNumber(g.status)] + Flag(g.released) + Items(g.bindings, BindingBytes)
  }

  function ContractBytes(c: Contract): Bytes {
    Long(c.id) + Long(c.generation) + Items(c.reqs, RequirementBytes) + GrantBytes(c.grant)
  }

  function DepsBytes(d: Deps): Bytes {
    Long(d.id) + Long(d.generation) + Items(d.defs, DefinitionBytes) + Items(d.states, DependencyBytes)
  }

  function PriorityBytes(p: Priority): Bytes {
    (Long(p.cls) + Long(p.generation) + [TierNumber(p.baseTier)]) + Signed(p.baseValue) + Signed(p.promotion)
    + (Flag(p.starved) + Flag(p.preemptible) + Flag(p.protectedFromPreemption))
  }

  function CountersBytes(w: Workload): Bytes {
    Long(w.ident.owner) + Long(w.ident.ownerGeneration) + Long(w.ident.epoch)
    + Word(w.restarts.count) + Long(w.restarts.gen) + Long(w.migrations.id) + Long(w.migrations.gen) + Long(w.completionGen)
  }

  function MarksBytes(w: Workload): Bytes {
    Flag(w.cancel.requested) + Flag(w.cancel.finished) + Flag(w.cancel.wasRejected)
    + Text(w.restarts.lastReason) + Long(w.restarts.lastSource)
  }

  function PayloadBytes(w: Workload): Bytes {
    (HeaderBytes(w) + PolicyBytes(w.policy) + ContractBytes(w.contract) + DepsBytes(w.deps) + PriorityBytes(w.ident.priority))
    + (ProgressBytes(w.progress) + CountersBytes(w) + MarksBytes(w) + Items(w.episodes, EpisodeBytes) + Items(w.history, RecordBytes))
  }

  /** The record: "WFBR", version 1, the length of the payload, the payload and its FNV-1a value. */
  function Framed(payload: Bytes): Bytes {
    [0x57, 0x46, 0x42, 0x52] + [0, 0, 0, 1] + Long(|payload| % 0x1_0000_0000_0000_0000) + payload + Long(Fnv(payload))
  }

  // ---- The writers give these bytes ------------------------------------------

  function Digits(a: int, b: int, c: int, d: int): int {
    a * 0x100_0000 + b * 0x1_0000 + c * 0x100 + d
  }

  lemma DigitsOf(v: u32)
    ensures Digits(v / 0x100_0000, v / 0x1_0000 % 0x100, v / 0x100 % 0x100, v % 0x100) == v
  {
    var a, b := v / 0x100, v / 0x1_0000;
    assert v == a * 0x100 + v % 0x100;
    assert a == b * 0x100 + a % 0x100 by { assert a / 0x100 == b; }
    assert b == v / 0x100_0000 * 0x100 + b % 0x100 by { assert b / 0x100 == v / 0x100_0000; }
  }

  /** The last four digits of a number in base 256. */
  lemma FourDigits(b: Bytes)
    requires |b| >= 4
    ensures var n := |b|;
            FromBE(b) == FromBE(b[..n - 4]) * 0x1_0000_0000 + Digits(b[n - 4], b[n - 3], b[n - 2], b[n - 1])
  {
    var n := |b|;
    assert b[..n - 1][..n - 2] == b[..n - 2] && b[..n - 2][..n - 3] == b[..n - 3] && b[..n - 3][..n - 4] == b[..n - 4];
    assert FromBE(b) == FromBE(b[..n - 1]) * 256 + b[n - 1];
    assert FromBE(b[..n - 1]) == FromBE(b[..n - 2]) * 256 + b[n - 2];
    assert FromBE(b[..n - 2]) == FromBE(b[..n - 3]) * 256 + b[n - 3];
    assert FromBE(b[..n - 3]) == FromBE(b[..n - 4]) * 256 + b[n - 4];
  }

  lemma WordRead(v: u32)
    ensures FromBE(Word(v)) == v
  {
    FourDigits(Word(v));
    assert Word(v)[..0] == [];
    DigitsOf(v);
    hide Digits;
  }

  lemma HighDigits(n: u64)
    ensures var high := n / 0x1_0000_0000;
            && high / 0x100_0000 == n / 0x100_0000_0000_0000 && high / 0x1_0000 == n / 0x1_0000_0000_0000
            && high / 0x100 == n / 0x100_0000_0000
  {
  }

  lemma FirstLowDigit(high: nat, low: u32)
    ensures (high * 0x1_0000_0000 + low) / 0x100_0000 % 0x100 == low / 0x100_0000 % 0x100
  {
    var a, r := low / 0x100_0000, low % 0x100_0000;
    assert high * 0x1_0000_0000 + low == (high * 0x100 + a) * 0x100_0000 + r;
    assert (high * 0x1_0000_0000 + low) / 0x100_0000 == high * 0x100 + a;
  }

  lemma SecondLowDigit(high: nat, low: u32)
    ensures (high * 0x1_0000_0000 + low) / 0x1_0000 % 0x100 == low / 0x1_0000 % 0x100
  {
    var a, r := low / 0x1_0000, low % 0x1_0000;
    assert high * 0x1_0000_0000 + low == (high * 0x1_0000 + a) * 0x1_0000 + r;
    assert (high * 0x1_0000_0000 + low) / 0x1_0000 == high * 0x1_0000 + a;
  }

  lemma ThirdLowDigit(high: nat, low: u32)
    ensures (high * 0x1_0000_0000 + low) / 0x100 % 0x100 == low / 0x100 % 0x100
  {
    var a, r := low / 0x100, low % 0x100;
    assert high * 0x1_0000_0000 + low == (high * 0x100_0000 + a) * 0x100 + r;
    assert (high * 0x1_0000_0000 + low) / 0x100 == high * 0x100_0000 + a;
  }

  lemma LastLowDigit(high: nat, low: u32)
    ensures (high * 0x1_0000_0000 + low) % 0x100 == low % 0x100
  {
    var a, r := low / 0x100, low % 0x100;
    assert high * 0x1_0000_0000 + low == (high * 0x100_0000 + a) * 0x100 + r;
  }

  lemma TopLowDigit(low: u32)
    ensures low / 0x100_0000 % 0x100 == low / 0x100_0000
  {
  }

  /** The high and the low half of a long. */
  lemma Halves(n: u64)
    ensures Long(n) == Word(n / 0x1_0000_0000) + Word(n % 0x1_0000_0000)
  {
    var high, low := n / 0x1_0000_0000, n % 0x1_0000_0000;
    assert n == high * 0x1_0000_0000 + low;
    HighDigits(n);
    FirstLowDigit(high, low);
    TopLowDigit(low);
    SecondLowDigit(high, low);
    ThirdLowDigit(high, low);
    LastLowDigit(high, low);
  }

  lemma LongRead(n: u64)
    ensures FromBE(Long(n)) == n
  {
    hide Digits, FromBE, Word, Long;
    var high, low := n / 0x1_0000_0000, n % 0x1_0000_0000;
    Halves(n);
    WordRead(high);
    WordRead(low);
    WordLength(high);
    WordLength(low);
    FourDigits(Word(high) + Word(low));
    FourDigits(Word(low));
    assert (Word(high) + Word(low))[..4] == Word(high);
    assert Word(low)[..0] == [];
    NoDigits();
  }

  lemma NoDigits()
    ensures FromBE([]) == 0
  {
  }

  lemma WordLength(v: u32)
    ensures |Word(v)| == 4
  {
  }

  lemma NumbersAsBytes(v: u32, n: u64)
    ensures ToBE(v, 4) == Word(v)
    ensures ToBE(n, 8) == Long(n)
  {
    hide FromBE, ToBE;
    WordRead(v);
    ToFromBE(Word(v));
    LongRead(n);
    ToFromBE(Long(n));
  }

  lemma Grouping()
    ensures forall a: Bytes, b: Bytes, c: Bytes {:trigger (a + b) + c} :: (a + b) + c == a + (b + c)
  {
  }

  /** What each primitive write puts in front of the bytes that follow. */
  lemma FieldsWritten()
    ensures forall v: u32, k {:trigger PutU32(v, k)} :: PutU32(v, k) == Word(v) + k
    ensures forall v: u64, k {:trigger PutU64(v, k)} :: PutU64(v, k) == Long(v) + k
    ensures forall v, k {:trigger PutBool(v, k)} :: PutBool(v, k) == Flag(v) + k
    ensures forall v, k {:trigger PutStr(v, k)} :: PutStr(v, k) == Text(v) + k
    ensures forall n: nat, k {:trigger PutCount(n, k)} :: PutCount(n, k) == Word(n % 0x1_0000_0000) + k
  {
    hide ToBE, Word, Long;
    forall v: u32 ensures ToBE(v, 4) == Word(v) {
      NumbersAsBytes(v, 0);
    }
    forall v: u64 ensures ToBE(v, 8) == Long(v) {
      NumbersAsBytes(0, v);
    }
    Grouping();
  }

  /** Every enumerator of the list is written as its number. */
  ghost predicate WrittenAs<T(!new)>(all: seq<T>, number: T -> byte) {
    |all| < 256 && forall x: T, k {:trigger PutEnum(all, x, k)} :: PutEnum(all, x, k) == [number(x)] + k
  }

  lemma EnumWritten<T(!new)>(all: seq<T>, number: T -> byte)
    requires Numbered(all, number) && |all| < 256
    ensures WrittenAs(all, number)
  {
    hide IndexOf;
  }

  lemma EnumsWritten()
    ensures WrittenAs(ALL_WORKLOAD_STATES, StateNumber)
    ensures WrittenAs(ALL_EPISODE_STATES, EpisodeNumber)
    ensures WrittenAs(ALL_OUTCOMES, OutcomeNumber)
    ensures WrittenAs(ALL_RESTART_KINDS, RestartKindNumber)
    ensures WrittenAs(ALL_COMPLETION_KINDS, CompletionKindNumber)
    ensures WrittenAs(ALL_MIGRATION_ELIGIBILITIES, EligibilityNumber)
    ensures WrittenAs(ALL_CANCEL_RACES, RaceNumber)
    ensures WrittenAs(ALL_NEED_LEVELS, LevelNumber)
    ensures WrittenAs(ALL_RESOURCE_KINDS, ResourceNumber)
    ensures WrittenAs(ALL_GRANT_STATUSES, GrantNumber)
    ensures WrittenAs(ALL_DEPENDENCY_REQUIREMENTS, NeedNumber)
    ensures WrittenAs(ALL_DEPENDENCY_READY, ReadyNumber)
    ensures WrittenAs(ALL_DEPENDENCY_STATUSES, StatusNumber)
    ensures WrittenAs(ALL_PRIORITY_TIERS, TierNumber)
    ensures WrittenAs(ALL_TOTAL_KINDS, TotalKindNumber)
    ensures WrittenAs(ALL_PROVENANCES, ProvenanceNumber)
  {
    hide ALL_WORKLOAD_STATES, ALL_EPISODE_STATES, ALL_OUTCOMES, ALL_RESTART_KINDS, ALL_COMPLETION_KINDS;
    hide ALL_MIGRATION_ELIGIBILITIES, ALL_CANCEL_RACES, ALL_NEED_LEVELS, ALL_RESOURCE_KINDS, ALL_GRANT_STATUSES;
    hide ALL_DEPENDENCY_REQUIREMENTS, ALL_DEPENDENCY_READY, ALL_DEPENDENCY_STATUSES, ALL_PRIORITY_TIERS, ALL_TOTAL_KINDS;
    hide ALL_PROVENANCES;
    hide PutEnum, Numbered, WrittenAs, StateNumber, EpisodeNumber, OutcomeNumber, RestartKindNumber, CompletionKindNumber;
    hide EligibilityNumber, RaceNumber, LevelNumber, ResourceNumber, GrantNumber, NeedNumber, ReadyNumber, StatusNumber;
    hide TierNumber, TotalKindNumber, ProvenanceNumber;
    WorkloadStateNumbers();
    EnumWritten(ALL_WORKLOAD_STATES, StateNumber);
    EpisodeStateNumbers();
    EnumWritten(ALL_EPISODE_STATES, EpisodeNumber);
    OutcomeNumbers();
    EnumWritten(ALL_OUTCOMES, OutcomeNumber);
    RestartKindNumbers();
    EnumWritten(ALL_RESTART_KINDS, RestartKindNumber);
    CompletionKindNumbers();
    EnumWritten(ALL_COMPLETION_KINDS, CompletionKindNumber);
    MigrationEligibilityNumbers();
    EnumWritten(ALL_MIGRATION_ELIGIBILITIES, EligibilityNumber);
    CancelRaceNumbers();
    EnumWritten(ALL_CANCEL_RACES, RaceNumber);
    NeedLevelNumbers();
    EnumWritten(ALL_NEED_LEVELS, LevelNumber);
    ResourceKindNumbers();
    EnumWritten(ALL_RESOURCE_KINDS, ResourceNumber);
    GrantStatusNumbers();
    EnumWritten(ALL_GRANT_STATUSES, GrantNumber);
    DependencyRequirementNumbers();
    EnumWritten(ALL_DEPENDENCY_REQUIREMENTS, NeedNumber);
    DependencyReadyNumbers();
    EnumWritten(ALL_DEPENDENCY_READY, ReadyNumber);
    DependencyStatusNumbers();
    EnumWritten(ALL_DEPENDENCY_STATUSES, StatusNumber);
    PriorityTierNumbers();
    EnumWritten(ALL_PRIORITY_TIERS, TierNumber);
    TotalKindNumbers();
    EnumWritten(ALL_TOTAL_KINDS, TotalKindNumber);
    ProvenanceNumbers();
    EnumWritten(ALL_PROVENANCES, ProvenanceNumber);
  }

  lemma RequirementWritten(r: Requirement, k: Bytes)
    ensures PutRequirement(r, k) == RequirementBytes(r) + k
  {
    hide PutU32, PutU64, PutBool, PutStr, PutCount, PutEnum, Word, Long, Flag, Text, Items;
    FieldsWritten();
    EnumsWritten();
    Grouping();
  }

  lemma BindingWritten(b: Binding, k: Bytes)
    ensures PutBinding(b, k) == BindingBytes(b) + k
  {
    hide PutU32, PutU64, PutBool, PutStr, PutCount, PutEnum, Word, Long, Flag, Text, Items;
    FieldsWritten();
    EnumsWritten();
    Grouping();
  }

  lemma DefinitionWritten(d: DependencyDef, k: Bytes)
    ensures PutDef(d, k) == DefinitionBytes(d) + k
  {
    hide PutU32, PutU64, PutBool, PutStr, PutCount, PutEnum, Word, Long, Flag, Text, Items;
    FieldsWritten();
    EnumsWritten();
    Grouping();
  }

  lemma DependencyWritten(d: DependencyState, k: Bytes)
    ensures PutState(d, k) == DependencyBytes(d) + k
  {
    hide PutU32, PutU64, PutBool, PutStr, PutCount, PutEnum, Word, Long, Flag, Text, Items;
    FieldsWritten();
    EnumsWritten();
    Grouping();
  }

  lemma ProgressWritten(p: Progress, k: Bytes)
    ensures PutProgress(p, k) == ProgressBytes(p) + k
  {
    hide PutU32, PutU64, PutBool, PutStr, PutCount, PutEnum, Word, Long, Flag, Text, Items;
    FieldsWritten();
    EnumsWritten();
    Grouping();
  }

  lemma RecordWritten(r: Record, k: Bytes)
    ensures PutRecord(r, k) == RecordBytes(r) + k
  {
    hide PutU32, PutU64, PutBool, PutStr, PutCount, PutEnum, Word, Long, Flag, Text, Items;
    FieldsWritten();
    EnumsWritten();
    Grouping();
  }

  lemma RestartPolicyWritten(p: RestartPolicy, k: Bytes)
    ensures PutRestartPolicy(p, k) == RestartPolicyBytes(p) + k
  {
    hide PutU32, PutU64, PutBool, PutStr, PutCount, PutEnum, Word, Long, Flag, Text, Items;
    FieldsWritten();
    EnumsWritten();
    Grouping();
  }

  lemma CompletionPolicyWritten(p: CompletionPolicy, k: Bytes)
    ensures PutCompletionPolicy(p, k) == CompletionPolicyBytes(p) + k
  {
    hide PutU32, PutU64, PutBool, PutStr, PutCount, PutEnum, Word, Long, Flag, Text, Items;
    FieldsWritten();
    EnumsWritten();
    Grouping();
  }

  lemma MigrationPolicyWritten(p: MigrationPolicy, k: Bytes)
    ensures PutMigrationPolicy(p, k) == MigrationPolicyBytes(p) + k
  {
    hide PutU32, PutU64, PutBool, PutStr, PutCount, PutEnum, Word, Long, Flag, Text, Items;
    FieldsWritten();
    EnumsWritten();
    Grouping();
  }

  lemma SuspensionPolicyWritten(p: SuspensionPolicy, k: Bytes)
    ensures PutSuspensionPolicy(p, k) == SuspensionPolicyBytes(p) + k
  {
    hide PutU32, PutU64, PutBool, PutStr, PutCount, PutEnum, Word, Long, Flag, Text, Items;
    FieldsWritten();
    EnumsWritten();
    Grouping();
  }

  lemma PlacementWritten(e: Episode, k: Bytes)
    ensures PutEpisodeHead(HeadOf(e), k) == PlacementBytes(e) + k
  {
    hide PutU32, PutU64, PutBool, PutStr, PutCount, PutEnum, Word, Long, Flag, Text, Items;
    FieldsWritten();
    EnumsWritten();
    Grouping();
  }

  lemma HandleWritten(h: Handle, k: Bytes)
    ensures PutHandle(h, k) == HandleBytes(h) + k
  {
    hide PutU32, PutU64, PutBool, PutStr, PutCount, PutEnum, Word, Long, Flag, Text, Items;
    FieldsWritten();
    EnumsWritten();
    Grouping();
  }

  lemma LineageWritten(l: Lineage, k: Bytes)
    ensures PutLineage(l, k) == LineageBytes(l) + k
  {
    hide PutU32, PutU64, PutBool, PutStr, PutCount, PutEnum, Word, Long, Flag, Text, Items;
    FieldsWritten();
    EnumsWritten();
    Grouping();
  }

  lemma SixGrouped(a: Bytes, b: Bytes, c: Bytes, d: Bytes, e: Bytes, f: Bytes, k: Bytes)
    ensures a + (b + (c + (d + (e + (f + k))))) == (a + b + c + d + e + f) + k
  {
    Grouping();
  }

  lemma StandingWritten(e: Episode, k: Bytes)
    ensures PutEpisodeTail(TailOf(e), k) == StandingBytes(e) + k
  {
    hide PutU32, PutU64, PutBool, PutStr, PutCount, Word, Long, Flag, Text;
    FieldsWritten();
    SixGrouped(Text(e.intent), Flag(e.authoritative), Flag(e.failed), Flag(e.cancelled), Flag(e.completed), Flag(e.workerLost), k);
  }

  lemma PriorityHalves(p: Priority, k: Bytes)
    ensures PutPriority(p, k) ==
            (Long(p.cls) + Long(p.generation) + [TierNumber(p.baseTier)])
            + (Long(I32ToU64(p.baseValue)) + (Long(I32ToU64(p.promotion))
            + ((Flag(p.starved) + Flag(p.preemptible) + Flag(p.protectedFromPreemption)) + k)))
  {
    hide PutU32, PutU64, PutBool, PutStr, PutCount, PutEnum, Word, Long, Flag, Text, Items, I32ToU64;
    FieldsWritten();
    EnumsWritten();
    Grouping();
  }

  lemma SignedWritten(v: i32)
    ensures Long(I32ToU64(v)) == Signed(v)
  {
    hide Long;
  }

  lemma FourGrouped(a: Bytes, b: Bytes, c: Bytes, d: Bytes, k: Bytes)
    ensures a + (b + (c + (d + k))) == (a + b + c + d) + k
  {
    Grouping();
  }

  lemma PriorityWritten(p: Priority, k: Bytes)
    ensures PutPriority(p, k) == PriorityBytes(p) + k
  {
    hide PutPriority, Long, Flag, I32ToU64, Signed;
    PriorityHalves(p, k);
    SignedWritten(p.baseValue);
    SignedWritten(p.promotion);
    FourGrouped(Long(p.cls) + Long(p.generation) + [TierNumber(p.baseTier)], Signed(p.baseValue), Signed(p.promotion),
                Flag(p.starved) + Flag(p.preemptible) + Flag(p.protectedFromPreemption), k);
  }

  lemma HeaderWritten(w: Workload, k: Bytes)
    ensures PutHeader(FrontOf(w).header, k) == HeaderBytes(w) + k
  {
    hide PutU32, PutU64, PutBool, PutStr, PutCount, PutEnum, Word, Long, Flag, Text, Items;
    FieldsWritten();
    EnumsWritten();
    Grouping();
  }

  lemma CountersWritten(w: Workload, k: Bytes)
    ensures PutCounters(RearOf(w).counters, k) == CountersBytes(w) + k
  {
    hide PutU32, PutU64, PutBool, PutStr, PutCount, PutEnum, Word, Long, Flag, Text, Items;
    FieldsWritten();
    Grouping();
  }

  lemma MarksWritten(w: Workload, k: Bytes)
    ensures PutMarks(RearOf(w).marks, k) == MarksBytes(w) + k
  {
    hide PutU32, PutU64, PutBool, PutStr, PutCount, PutEnum, Word, Long, Flag, Text, Items;
    FieldsWritten();
    Grouping();
  }

  /** Items written one in front of the other stand one after the other. */
  lemma {:induction false} ItemsWritten<T(!new)>(put: (T, Bytes) -> Bytes, item: T -> Bytes, xs: seq<T>, k: Bytes)
    requires forall x, k {:trigger put(x, k)} :: put(x, k) == item(x) + k
    ensures PutMany(put, xs, k) == InTurn(xs, item) + k
  {
    if xs != [] {
      ItemsWritten(put, item, xs[1..], k);
      Grouping();
    } else {
      assert [] + k == k;
    }
  }

  lemma CountedWritten<T(!new)>(put: (T, Bytes) -> Bytes, item: T -> Bytes, xs: seq<T>, k: Bytes)
    requires forall x, k {:trigger put(x, k)} :: put(x, k) == item(x) + k
    ensures PutCount(|xs|, PutMany(put, xs, k)) == Items(xs, item) + k
  {
    hide PutCount, PutMany, Word, InTurn;
    FieldsWritten();
    ItemsWritten(put, item, xs, k);
    Grouping();
  }

  lemma GrantWritten(g: Grant, k: Bytes)
    ensures PutGrant(g, k) == GrantBytes(g) + k
  {
    hide PutU64, PutBool, PutCount, PutMany, PutEnum, PutBinding, BindingBytes, Long, Flag, Items;
    FieldsWritten();
    EnumsWritten();
    forall b, k ensures PutBinding(b, k) == BindingBytes(b) + k {
      BindingWritten(b, k);
    }
    CountedWritten(PutBinding, BindingBytes, g.bindings, k);
    Grouping();
  }

  lemma ContractWritten(c: Contract, k: Bytes)
    ensures PutContract(c, k) == ContractBytes(c) + k
  {
    hide PutU64, PutCount, PutMany, PutRequirement, PutGrant, RequirementBytes, GrantBytes, Long, Items;
    FieldsWritten();
    GrantWritten(c.grant, k);
    forall r, k ensures PutRequirement(r, k) == RequirementBytes(r) + k {
      RequirementWritten(r, k);
    }
    CountedWritten(PutRequirement, RequirementBytes, c.reqs, PutGrant(c.grant, k));
    Grouping();
  }

  lemma DepsWritten(d: Deps, k: Bytes)
    ensures PutDeps(d, k) == DepsBytes(d) + k
  {
    hide PutU64, PutCount, PutMany, PutDef, PutState, DefinitionBytes, DependencyBytes, Long, Items;
    FieldsWritten();
    forall x, k ensures PutDef(x, k) == DefinitionBytes(x) + k {
      DefinitionWritten(x, k);
    }
    forall x, k ensures PutState(x, k) == DependencyBytes(x) + k {
      DependencyWritten(x, k);
    }
    CountedWritten(PutState, DependencyBytes, d.states, k);
    CountedWritten(PutDef, DefinitionBytes, d.defs, Items(d.states, DependencyBytes) + k);
    Grouping();
  }

  lemma EpisodeWritten(e: Episode, k: Bytes)
    ensures PutEpisode(e, k) == EpisodeBytes(e) + k
  {
    hide PutEpisodeHead, PutHandle, PutLineage, PutProgress, PutEpisodeTail, HeadOf, TailOf;
    hide PlacementBytes, HandleBytes, LineageBytes, ProgressBytes, StandingBytes;
    StandingWritten(e, k);
    ProgressWritten(e.progress, StandingBytes(e) + k);
    LineageWritten(e.lineage, ProgressBytes(e.progress) + (StandingBytes(e) + k));
    HandleWritten(e.handle, LineageBytes(e.lineage) + (ProgressBytes(e.progress) + (StandingBytes(e) + k)));
    PlacementWritten(e, HandleBytes(e.handle) + (LineageBytes(e.lineage) + (ProgressBytes(e.progress) + (StandingBytes(e) + k))));
    Grouping();
  }

  lemma PolicyWritten(p: Policy, k: Bytes)
    ensures PutPolicy(p, k) == PolicyBytes(p) + k
  {
    hide PutRestartPolicy, PutCompletionPolicy, PutMigrationPolicy, PutSuspensionPolicy, PutEnum, PutU64, Long;
    hide RestartPolicyBytes, CompletionPolicyBytes, MigrationPolicyBytes, SuspensionPolicyBytes, RaceNumber;
    FieldsWritten();
    EnumsWritten();
    var race := [RaceNumber(p.cancelRace)] + (Long(p.generation) + k);
    SuspensionPolicyWritten(p.suspension, race);
    var rest := SuspensionPolicyBytes(p.suspension) + race;
    MigrationPolicyWritten(p.migration, rest);
    CompletionPolicyWritten(p.completion, MigrationPolicyBytes(p.migration) + rest);
    RestartPolicyWritten(p.restart, CompletionPolicyBytes(p.completion) + (MigrationPolicyBytes(p.migration) + rest));
    Grouping();
  }

  lemma FrontWritten(w: Workload, k: Bytes)
    ensures PutFront(FrontOf(w), k) ==
            (HeaderBytes(w) + PolicyBytes(w.policy) + ContractBytes(w.contract) + DepsBytes(w.deps) + PriorityBytes(w.ident.priority)) + k
  {
    hide PutHeader, PutPolicy, PutContract, PutDeps, PutPriority;
    hide HeaderBytes, PolicyBytes, ContractBytes, DepsBytes, PriorityBytes;
    var priority := PriorityBytes(w.ident.priority) + k;
    PriorityWritten(w.ident.priority, k);
    DepsWritten(w.deps, priority);
    ContractWritten(w.contract, DepsBytes(w.deps) + priority);
    PolicyWritten(w.policy, ContractBytes(w.contract) + (DepsBytes(w.deps) + priority));
    HeaderWritten(w, PolicyBytes(w.policy) + (ContractBytes(w.contract) + (DepsBytes(w.deps) + priority)));
    Grouping();
  }

  lemma RearWritten(w: Workload, k: Bytes)
    ensures PutRear(RearOf(w), k) ==
            (ProgressBytes(w.progress) + CountersBytes(w) + MarksBytes(w) + Items(w.episodes, EpisodeBytes)
             + Items(w.history, RecordBytes)) + k
  {
    hide PutProgress, PutCounters, PutMarks, PutCount, PutMany, PutEpisode, PutRecord;
    hide ProgressBytes, CountersBytes, MarksBytes, Items, EpisodeBytes, RecordBytes;
    forall e, k ensures PutEpisode(e, k) == EpisodeBytes(e) + k {
      EpisodeWritten(e, k);
    }
    forall r, k ensures PutRecord(r, k) == RecordBytes(r) + k {
      RecordWritten(r, k);
    }
    var history := Items(w.history, RecordBytes) + k;
    CountedWritten(PutRecord, RecordBytes, w.history, k);
    CountedWritten(PutEpisode, EpisodeBytes, w.episodes, history);
    MarksWritten(w, Items(w.episodes, EpisodeBytes) + history);
    CountersWritten(w, MarksBytes(w) + (Items(w.episodes, EpisodeBytes) + history));
    ProgressWritten(w.progress, CountersBytes(w) + (MarksBytes(w) + (Items(w.episodes, EpisodeBytes) + history)));
    Grouping();
  }

  /** The payload of every workload is the flat list of its fields. */
  lemma PayloadIsItsFields(w: Workload)
    ensures Payload(w) == PayloadBytes(w)
  {
    hide PutFront, PutRear, HeaderBytes, PolicyBytes, ContractBytes, DepsBytes, PriorityBytes;
    hide ProgressBytes, CountersBytes, MarksBytes, Items;
    RearWritten(w, []);
    FrontWritten(w, PutRear(RearOf(w), []));
    var rear := ProgressBytes(w.progress) + CountersBytes(w) + MarksBytes(w) + Items(w.episodes, EpisodeBytes)
                + Items(w.history, RecordBytes);
    assert rear + [] == rear;
  }

  lemma FrameIs(payload: Bytes)
    ensures Frame(payload) == Framed(payload)
  {
    hide PutU32, PutU64, Long, Fnv;
    FieldsWritten();
    var seal := payload + (Long(Fnv(payload)) + []);
    assert Long(Fnv(payload)) + [] == Long(Fnv(payload));
    assert Word(MAGIC) == [0x57, 0x46, 0x42, 0x52] && Word(FORMAT_VERSION) == [0, 0, 0, 1];
    Grouping();
    hide Word;
  }

  /** The record of every workload, byte by byte. */
  lemma RecordIsItsBytes(w: Workload)
    ensures EncodeRecord(w) == Framed(PayloadBytes(w))
  {
    hide Payload, PayloadBytes, Frame, Framed;
    PayloadIsItsFields(w);
    FrameIs(Payload(w));
  }

  lemma LongLength(v: u64)
    ensures |Long(v)| == 8
  {
  }

  /** What stands at fixed places of a record: "WFBR", version 1, payload length, id, generation, revision, state. */
  predicate FixedPart(r: Bytes, length: u64, id: u64, generation: u64, revision: u64, state: byte) {
    && |r| > 40 && r[..8] == [0x57, 0x46, 0x42, 0x52, 0, 0, 0, 1] && r[8..16] == Long(length)
    && r[16..24] == Long(id) && r[24..32] == Long(generation) && r[32..40] == Long(revision) && r[40] == state
  }

  lemma Slices(a: Bytes, b: Bytes, c: Bytes, d: Bytes, n: byte, rest: Bytes, last: Bytes)
    requires |a| == |b| == |c| == |d| == 8
    ensures var r := [0x57, 0x46, 0x42, 0x52] + [0, 0, 0, 1] + a + (b + c + d + [n] + rest) + last;
            && |r| > 40 && r[..8] == [0x57, 0x46, 0x42, 0x52, 0, 0, 0, 1] && r[8..16] == a
            && r[16..24] == b && r[24..32] == c && r[32..40] == d && r[40] == n
  {
  }

  lemma FixedPartIs(length: u64, id: u64, generation: u64, revision: u64, state: byte, rest: Bytes, last: Bytes)
    ensures FixedPart([0x57, 0x46, 0x42, 0x52] + [0, 0, 0, 1] + Long(length)
                      + (Long(id) + Long(generation) + Long(revision) + [state] + rest) + last,
                      length, id, generation, revision, state)
  {
    hide Long;
    LongLength(length);
    LongLength(id);
    LongLength(generation);
    LongLength(revision);
    Slices(Long(length), Long(id), Long(generation), Long(revision), state, rest, last);
  }

  /** Every record carries id, generation, revision and the number of the state at their places. */
  lemma FixedPlaces(w: Workload)
    ensures FixedPart(EncodeRecord(w), Wrap(|Payload(w)|), w.ident.id, w.generation, w.revision, StateNumber(w.state))
  {
    hide Payload, PayloadBytes, Long, EncodeRecord, StateNumber, FixedPart, Fnv, RestOfPayload;
    RecordIsItsBytes(w);
    PayloadIsItsFields(w);
    FixedPartIs(Wrap(|Payload(w)|), w.ident.id, w.generation, w.revision, StateNumber(w.state), RestOfPayload(w),
                Long(Fnv(PayloadBytes(w))));
  }

  lemma AfterState(start: Bytes, name: Bytes, intent: Bytes, p: Bytes, c: Bytes, d: Bytes, priority: Bytes, rear: Bytes)
    ensures (start + name + intent + p + c + d + priority) + rear == start + (name + intent + p + c + d + priority + rear)
  {
    Grouping();
  }

  /** The payload after the state. */
  function RestOfPayload(w: Workload): (rest: Bytes)
    ensures PayloadBytes(w) == Long(w.ident.id) + Long(w.generation) + Long(w.revision) + [StateNumber(w.state)] + rest
  {
    hide Long, Text, PolicyBytes, ContractBytes, DepsBytes, PriorityBytes, ProgressBytes, CountersBytes, MarksBytes, Items, StateNumber;
    var rear := ProgressBytes(w.progress) + CountersBytes(w) + MarksBytes(w) + Items(w.episodes, EpisodeBytes)
                + Items(w.history, RecordBytes);
    AfterState(Long(w.ident.id) + Long(w.generation) + Long(w.revision) + [StateNumber(w.state)], Text(w.ident.name), Text(w.ident.intent),
               PolicyBytes(w.policy), ContractBytes(w.contract), DepsBytes(w.deps), PriorityBytes(w.ident.priority), rear);
    Text(w.ident.name) + Text(w.ident.intent) + PolicyBytes(w.policy) + ContractBytes(w.contract) + DepsBytes(w.deps)
    + PriorityBytes(w.ident.priority) + rear
  }

  // ---- And the decoder reads them so -----------------------------------------

  /** How each field is read: a flag from any byte but 0, a signed number from its low 32 bits, a text by its length. */
  lemma FieldsRead(v: u32, n: u64, b: byte, t: Bytes, k: Bytes)
    requires |t| < TWO64
    ensures GetU32(Word(v) + k) == Ok(v, k) && GetU64(Long(n) + k) == Ok(n, k)
    ensures GetBool([b] + k) == Ok(b > 0, k)
    ensures GetStr(Text(t) + k) == Ok(t, k)
    ensures (n - U64ToI32(n)) % 0x1_0000_0000 == 0
  {
    hide GetU32, GetU64, GetStr, PutU32, PutU64, PutStr, Word, Long, Text;
    FieldsWritten();
    ReadsUndoWrites();
    assert PutU32(v, k) == Word(v) + k && PutU64(n, k) == Long(n) + k && PutStr(t, k) == Text(t) + k;
    assert ([b] + k)[1..] == k;
  }

  /** A text whose length exceeds the bytes left runs short. */
  lemma TextTooLong(n: u64, s: Bytes)
    ensures |s| < n ==> GetStr(Long(n) + s).Short?
  {
    hide GetU64, PutU64, Long;
    FieldsWritten();
    ReadsUndoWrites();
    assert PutU64(n, s) == Long(n) + s;
  }

  lemma LongIsRead(s: Bytes)
    ensures GetU64(s).Ok? ==> s == Long(GetU64(s).value) + GetU64(s).rest
  {
    hide GetU64, Long;
    NumbersAreTheirBytes(s);
    FieldsWritten();
  }

  lemma StateIsRead(s: Bytes)
    ensures var r := GetEnum(ALL_WORKLOAD_STATES, s); r.Ok? ==> s == [StateNumber(r.value)] + r.rest
  {
    hide ALL_WORKLOAD_STATES, StateNumber;
    WorkloadStateNumbers();
    if s != [] {
      assert s == [s[0]] + s[1..];
      ByteNames(ALL_WORKLOAD_STATES, StateNumber, s[0], s[1..]);
    }
  }

  lemma HeaderIsRead(s: Bytes)
    requires GetHeader(s).Ok?
    ensures var h := GetHeader(s).value;
            exists rest: Bytes :: s == Long(h.id) + Long(h.generation) + Long(h.revision) + [StateNumber(h.state)] + rest
  {
    hide GetU64, GetEnum, GetStr, Long, StateNumber;
    var a := GetU64(s);
    var b := GetU64(a.rest);
    var c := GetU64(b.rest);
    var d := GetEnum(ALL_WORKLOAD_STATES, c.rest);
    LongIsRead(s);
    LongIsRead(a.rest);
    LongIsRead(b.rest);
    StateIsRead(c.rest);
    var id, generation, revision, state := Long(a.value), Long(b.value), Long(c.value), [StateNumber(d.value)];
    Grouping();
    assert s == id + generation + revision + state + d.rest;
  }

  lemma PayloadHeader(p: Bytes)
    requires DecodePayload(p).Ok?
    ensures var w := DecodePayload(p).value;
            GetHeader(p).Ok? && GetHeader(p).value == Header(w.ident.id, w.generation, w.revision, w.state, w.ident.name, w.ident.intent)
  {
    hide GetHeader, GetPolicy, GetContract, GetDeps, GetPriority, GetRear;
  }

  /** In every byte string that loads, the loaded id, generation, revision and state stand as numbers at their places. */
  lemma LoadedFixedPlaces(s: Bytes, w: Workload)
    requires DecodeRecord(s) == Decoded(ALLOW, Some(w))
    ensures exists n: u64 :: FixedPart(s, n, w.ident.id, w.generation, w.revision, StateNumber(w.state))
  {
    hide DecodeRecord, DecodePayload, Frame, GetHeader, Long, FixedPart, Fnv;
    LoadsIff(s, w);
    var p, junk :| |p| < TWO64 && s == Frame(p) + junk && DecodePayload(p).Ok? && DecodePayload(p).value == w;
    PayloadHeader(p);
    HeaderIsRead(p);
    FrameIs(p);
    var rest: Bytes :| p == Long(w.ident.id) + Long(w.generation) + Long(w.revision) + [StateNumber(w.state)] + rest;
    FixedPartIs(Wrap(|p|), w.ident.id, w.generation, w.revision, StateNumber(w.state), rest, Long(Fnv(p)));
    FixedPartOfPrefix(Frame(p), junk, Wrap(|p|), w.ident.id, w.generation, w.revision, StateNumber(w.state));
  }

  lemma FixedPartOfPrefix(r: Bytes, junk: Bytes, length: u64, id: u64, generation: u64, revision: u64, state: byte)
    requires FixedPart(r, length, id, generation, revision, state)
    ensures FixedPart(r + junk, length, id, generation, revision, state)
  {
    hide Long;
    var s := r + junk;
    assert s[..8] == r[..8] && s[8..16] == r[8..16] && s[16..24] == r[16..24] && s[24..32] == r[24..32] && s[32..40] == r[32..40];
  }
}

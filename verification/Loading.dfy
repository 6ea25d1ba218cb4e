/** Which inputs an engine may be given for its records to load back. */
module Loading {
  import opened Basics
  import opened Vocabulary
  import opened Dependencies
  import opened Resources
  import opened Model
  import opened Lifecycle
  import opened Runs
  import opened Binary
  import opened Codec
  import opened CodecLaws
  import opened Payloads
  import opened Records
  import opened Store
  import opened Engine
  import opened Simulation

  // ---- What becomes of the amounts -----------------------------------------

  predicate Adds(w: Workload, c: Call) {
    c.op.OpAddRequirement? && Made(w, c).out.ALLOW?
  }

  predicate AddIsGood(w: Workload, c: Call) {
    Adds(w, c) ==> GoodRequirement(Normalized(c.op.req))
  }

  /** Every requirement that was accepted carries finite amounts and a minimum that is not negative. */
  predicate AddsGood(w: Workload, calls: seq<Call>) {
    forall i | 0 <= i < |calls| :: AddIsGood(Run(w, calls[..i]), calls[i])
  }

  function LastGrant(g: Grant, calls: seq<Call>): Grant {
    if calls == [] then g
    else
      var op := calls[|calls| - 1].op;
      if op.OpApplyGrant? then op.grant else LastGrant(g, calls[..|calls| - 1])
  }

  function ContractAfter(w: Workload, op: Op): Contract {
    match op
    case OpAddRequirement(req) => WithRequirement(w.contract, req)
    case OpApplyGrant(grant) => WithGrant(w.contract, grant)
    case _ => w.contract
  }

  lemma EpisodeCallKeepsContract(w: Workload, op: Op, minted: u64)
    requires TouchesEpisodes(op)
    ensures Apply(w, op, minted).w.contract == w.contract
  {
    hide Guarded, TransitionOutcome, CompletionEvidence, FindEpisode, CurrentEpisode;
    hide StartEpisode, CommitMigration, CommitCompletion, CompleteSuspend;
    GuardedFrame();
    CompoundCalls();
  }

  lemma ControlContract(w: Workload, op: Op, minted: u64)
    requires !TouchesEpisodes(op)
    ensures Apply(w, op, minted).w.contract == ContractAfter(w, op)
    ensures op.OpAddRequirement? ==> Apply(w, op, minted).out == AddOutcome(w.contract, op.req)
  {
    hide Guarded, TransitionOutcome, CompleteCancellation, Gate, CurrentEpisode, WithRequirement, WithGrant, AddOutcome;
    GuardedFrame();
    CompoundCalls();
  }

  lemma ContractFrame(w: Workload, c: Call)
    ensures Made(w, c).w.contract == ContractAfter(w, c.op)
    ensures c.op.OpAddRequirement? ==> Made(w, c).out == AddOutcome(w.contract, c.op.req)
  {
    hide Apply, ContractAfter;
    if TouchesEpisodes(c.op) {
      EpisodeCallKeepsContract(w, c.op, c.minted);
      EpisodeCallsLeaveContract(w, c.op);
    } else {
      ControlContract(w, c.op, c.minted);
    }
  }

  lemma EpisodeCallsLeaveContract(w: Workload, op: Op)
    requires TouchesEpisodes(op)
    ensures ContractAfter(w, op) == w.contract && !op.OpAddRequirement?
  {
  }

  predicate GoodRequirements(reqs: seq<Requirement>) {
    AllOf(reqs, GoodRequirement)
  }

  lemma GoodSnoc(reqs: seq<Requirement>, r: Requirement)
    ensures GoodRequirements(reqs + [r]) <==> GoodRequirements(reqs) && GoodRequirement(r)
  {
    assert (reqs + [r])[|reqs|] == r;
    assert forall i | 0 <= i < |reqs| :: (reqs + [r])[i] == reqs[i];
  }

  lemma OneCallsAmounts(w: Workload, c: Call)
    ensures var d := Made(w, c).w.contract;
            && (GoodRequirements(d.reqs) <==> GoodRequirements(w.contract.reqs) && AddIsGood(w, c))
            && d.grant.bindings == (if c.op.OpApplyGrant? then c.op.grant.bindings else w.contract.grant.bindings)
  {
    hide Made, GoodRequirement, HasKey;
    ContractFrame(w, c);
    if c.op.OpAddRequirement? {
      GoodSnoc(w.contract.reqs, Normalized(c.op.req));
    }
    hide GoodRequirements;
  }

  lemma AddsGoodSnoc(w: Workload, calls: seq<Call>)
    requires calls != []
    ensures var n := |calls| - 1;
            AddsGood(w, calls) <==> AddsGood(w, calls[..n]) && AddIsGood(Run(w, calls[..n]), calls[n])
  {
    hide AddIsGood, Run;
    var n, init := |calls| - 1, calls[..|calls| - 1];
    assert forall i | 0 <= i < n :: init[..i] == calls[..i] && init[i] == calls[i];
    if AddsGood(w, calls) {
      forall i | 0 <= i < n ensures AddIsGood(Run(w, init[..i]), init[i]) {
        assert AddIsGood(Run(w, calls[..i]), calls[i]);
      }
    }
    if AddsGood(w, init) && AddIsGood(Run(w, calls[..n]), calls[n]) {
      forall i | 0 <= i < |calls| ensures AddIsGood(Run(w, calls[..i]), calls[i]) {
        if i < n {
          assert AddIsGood(Run(w, init[..i]), init[i]);
        }
      }
    }
  }

  /** The amounts of a contract are good exactly when every accepted requirement and the last grant were. */
  lemma {:induction false} AmountsGoodIff(w: Workload, calls: seq<Call>)
    requires GoodRequirements(w.contract.reqs)
    ensures var c := Run(w, calls).contract;
            && (GoodRequirements(c.reqs) <==> AddsGood(w, calls))
            && c.grant.bindings == LastGrant(w.contract.grant, calls).bindings
    decreases |calls|
  {
    hide Made, AddsGood, GoodRequirements, AddIsGood;
    if calls == [] {
      NoAdds(w);
    } else {
      var init, c := calls[..|calls| - 1], calls[|calls| - 1];
      AmountsGoodIff(w, init);
      OneCallsAmounts(Run(w, init), c);
      AddsGoodSnoc(w, calls);
    }
  }

  lemma NoAdds(w: Workload)
    ensures AddsGood(w, [])
  {
  }

  // ---- Counters that must not be zero --------------------------------------

  lemma GuardedLogsOne()
    ensures forall w: Workload, to, e, r {:trigger Guarded(w, to, e, r)} ::
              |w.history| <= |Guarded(w, to, e, r).w.history| <= |w.history| + 1
  {
    hide TransitionOutcome;
  }

  lemma EpisodeCallLogs(w: Workload, op: Op, minted: u64)
    requires TouchesEpisodes(op)
    ensures |Apply(w, op, minted).w.history| <= |w.history| + 3
  {
    hide Guarded, TransitionOutcome, CompletionEvidence, FindEpisode, CurrentEpisode, IsTerminal, IsCancelling, Deauthorized;
    GuardedLogsOne();
  }

  lemma ControlLogs(w: Workload, op: Op, minted: u64)
    requires !TouchesEpisodes(op)
    ensures |Apply(w, op, minted).w.history| <= |w.history| + 3
  {
    hide Guarded, TransitionOutcome, Gate, CurrentEpisode, IsTerminal, IsCancelling, RestartClassAllowed;
    GuardedLogsOne();
  }

  /** No call logs more than three transitions, so a run of fewer than 2^64 / 3 calls wraps no counter. */
  lemma {:induction false} CountersStaySmall(w: Workload, calls: seq<Call>)
    requires Inv(w)
    ensures |Run(w, calls).history| <= |w.history| + 3 * |calls|
    ensures |Run(w, calls).episodes| <= |w.episodes| + |calls|
    decreases |calls|
  {
    hide Apply, Inv;
    if calls != [] {
      var u, c := Run(w, calls[..|calls| - 1]), calls[|calls| - 1];
      CountersStaySmall(w, calls[..|calls| - 1]);
      RunKeepsInv(w, calls[..|calls| - 1]);
      StepAppendsAtMostOne(u, c);
      if TouchesEpisodes(c.op) {
        EpisodeCallLogs(u, c.op, c.minted);
      } else {
        ControlLogs(u, c.op, c.minted);
      }
    }
  }

  lemma CountersNotZero(w: Workload)
    requires Inv(w) && 1 + |w.history| < TWO64 && 1 + |w.episodes| < TWO64
    ensures w.generation != 0 && w.revision != 0
  {
    hide Replay, Handoff, Phase;
  }

  // ---- Loadable runs -------------------------------------------------------

  /** What the callers put into the contract: acceptable amounts in what counts. */
  predicate AmountsGood(birth: Workload, calls: seq<Call>) {
    AddsGood(birth, calls) && AllOf(LastGrant(NO_GRANT, calls).bindings, GoodBinding)
  }

  /** A workload can be loaded back exactly when its id is valid and its callers gave it acceptable amounts. */
  lemma LoadableIff(id: u64, name: Bytes, intent: Bytes, policy: Policy, calls: seq<Call>)
    requires 3 * |calls| + 1 < TWO64
    ensures var w := Created(id, name, intent, policy);
            Loadable(Run(w, calls)) <==> id != 0 && AmountsGood(w, calls)
  {
    hide Inv, Run, AddsGood, LastGrant, AllOf, Created;
    var w := Created(id, name, intent, policy);
    CreatedFacts(id, name, intent, policy);
    RunKeepsInv(w, calls);
    CountersStaySmall(w, calls);
    CountersNotZero(Run(w, calls));
    AmountsGoodIff(w, calls);
    RunKeepsIdentity(w, calls);
  }

  lemma CreatedFacts(id: u64, name: Bytes, intent: Bytes, policy: Policy)
    ensures var w := Created(id, name, intent, policy);
            && Inv(w) && GoodRequirements(w.contract.reqs) && w.contract.grant == NO_GRANT && Paired(w.deps)
            && w.history == [] && w.episodes == [] && w.ident.id == id
  {
    CreatedInv(id, name, intent, policy);
    hide Inv;
  }

  lemma {:induction false} RunKeepsIdentity(w: Workload, calls: seq<Call>)
    ensures SameIdentity(w, Run(w, calls))
    decreases |calls|
  {
    hide Made;
    if calls != [] {
      RunKeepsIdentity(w, calls[..|calls| - 1]);
      StepKeepsIdentity(Run(w, calls[..|calls| - 1]), calls[|calls| - 1]);
    }
  }

  // ---- The engine ----------------------------------------------------------

  /** What the decoder makes of a record it does not accept is a refusal, never the end of the process. */
  lemma RefusedIff(w: Workload)
    requires Encodable(w) && Paired(w.deps)
    ensures Refused(EncodeRecord(w)) <==> !Loadable(w)
  {
    hide DecodePayload, Payload, GoodContract, Sized, Persisted, Frame;
    ReadsOwnRecord(w);
    PayloadReadsBack(w);
    assert EncodeRecord(w) == Frame(Payload(w));
    hide EncodeRecord;
  }

  lemma {:induction false} StoryIsShort(e: EngineState, calls: seq<EngineCall>, id: u64)
    ensures StoryOf(e, calls, id).Some? ==> |StoryOf(e, calls, id).value.calls| <= |calls|
    decreases |calls|
  {
    hide EngineRun;
    if calls != [] {
      StoryIsShort(e, calls[..|calls| - 1], id);
    }
  }

  /** The inputs of an engine run that decide whether the records of `id` load: its id and the amounts it was given. */
  predicate InputsGood(calls: seq<EngineCall>, id: u64) {
    var story := StoryOf(Started(true), calls, id);
    id != 0 && story.Some? && AmountsGood(story.value.birth, story.value.calls)
  }

  lemma EngineLoadableIff(calls: seq<EngineCall>, id: u64)
    requires 3 * |calls| + 1 < TWO64 && id in EngineRun(Started(true), calls).workloads
    ensures Loadable(EngineRun(Started(true), calls).workloads[id]) <==> InputsGood(calls, id)
  {
    hide EngineRun, StoryOf, Run, Loadable, AmountsGood, Created;
    EngineRunsAreWorkloadRuns(calls, id, true);
    StoryIsShort(Started(true), calls, id);
    var story := StoryOf(Started(true), calls, id).value;
    LoadableIff(id, story.birth.ident.name, story.birth.ident.intent, story.birth.policy, story.calls);
  }

  /** The last call of the run was allowed. */
  predicate LastAllowed(calls: seq<EngineCall>)
    ensures LastAllowed(calls) ==> calls != [] && calls[|calls| - 1].id in EngineRun(Started(true), calls).workloads
  {
    calls != [] && Perform(EngineRun(Started(true), calls[..|calls| - 1]), calls[|calls| - 1]).r.outcome.ALLOW?
  }

  /** What loading the workload of the last call gives. */
  function LoadedLast(calls: seq<EngineCall>): Decoded
    requires LastAllowed(calls)
  {
    var e := EngineRun(Started(true), calls);
    if e.shelf.None? then Terminated else LoadedFrom(e.shelf.value, calls[|calls| - 1].id)
  }

  lemma LastSavedIsLive(calls: seq<EngineCall>)
    requires LastAllowed(calls)
    ensures var id := calls[|calls| - 1].id;
            LastSaved(Started(true), calls, id) == Some(EngineRun(Started(true), calls).workloads[id])
  {
    hide Perform;
  }

  /**
   * After every engine run whose last call was allowed: that workload's record loads back as the live
   * workload exactly when its id is not 0 and every accepted requirement and the last grant carried acceptable
   * amounts - finite, minima and granted amounts not negative; otherwise the load is refused.
   */
  lemma RecordLoadsIffInputsGood(calls: seq<EngineCall>)
    requires LastAllowed(calls) && 3 * |calls| + 1 < TWO64
    requires Encodable(EngineRun(Started(true), calls).workloads[calls[|calls| - 1].id])
    ensures var id := calls[|calls| - 1].id;
            LoadedLast(calls) ==
            if InputsGood(calls, id) then Decoded(ALLOW, Some(Persisted(EngineRun(Started(true), calls).workloads[id])))
            else Decoded(REJECT_UNKNOWN, None)
  {
    hide LastAllowed, EngineRun, Encodable, Loadable, Agrees, EncodeRecord, DecodeRecord, Lookup, Persisted, InputsGood;
    var id := calls[|calls| - 1].id;
    var w := EngineRun(Started(true), calls).workloads[id];
    LastSavedIsLive(calls);
    StoreTracksEngine(calls, id);
    EngineLoadableIff(calls, id);
    RecordRoundTripIff(w);
    RefusedIff(w);
    hide LastSaved;
  }

  // ---- Inputs the engine accepts and the decoder does not ------------------

  lemma FirstCall(c: EngineCall)
    ensures EngineRun(Started(true), [c]) == Perform(Started(true), c).e
    ensures LastAllowed([c]) <==> Perform(Started(true), c).r.outcome.ALLOW?
  {
    hide Perform;
    assert [c][..0] == [];
    assert EngineRun(Started(true), [c]) == Perform(EngineRun(Started(true), []), c).e;
  }

  /** Id 0 is registered and saved, and its record does not load. */
  lemma IdZeroDoesNotLoad(name: Bytes, intent: Bytes, policy: Policy)
    requires |name| < TWO63 - 1000 && |intent| < TWO63 - 1000
    ensures var calls := [Register(0, name, intent, policy)];
            LastAllowed(calls) && LoadedLast(calls) == Decoded(REJECT_UNKNOWN, None)
  {
    hide LoadedLast, AmountsGood, StoryOf, Encodable, Created, Kept;
    var c := Register(0, name, intent, policy);
    FirstCall(c);
    FreshEncodable(0, name, intent, policy);
    RecordLoadsIffInputsGood([c]);
  }

  const INFINITY: F64 := 0x7ff0_0000_0000_0000

  const UNBOUNDED: Requirement := Requirement(DEVICE_MEMORY, NEED_REQUIRED, INFINITY, F64_ZERO, [])

  lemma UnboundedAdded(policy: Policy)
    ensures var w := Created(1, [], [], policy);
            var s := Apply(w, OpAddRequirement(UNBOUNDED), 1000);
            && s == Step(w.(contract := Contract(0, 1, [UNBOUNDED], NO_GRANT)), ALLOW)
            && Encodable(s.w) && !Loadable(s.w)
  {
    hide Encodable;
    WithRequirementEncodable(policy, UNBOUNDED);
    var w := Created(1, [], [], policy).(contract := Contract(0, 1, [UNBOUNDED], NO_GRANT));
    assert !GoodRequirement(w.contract.reqs[0]);
  }

  /** An infinite minimum is accepted and saved, and the record does not load any more. */
  lemma InfiniteAmountDoesNotLoad(policy: Policy)
    ensures var calls := [Register(1, [], [], policy), On(1, OpAddRequirement(UNBOUNDED))];
            LastAllowed(calls) && LoadedLast(calls) == Decoded(REJECT_UNKNOWN, None)
  {
    hide LoadedLast, InputsGood, Encodable, Created, Kept, Loadable, Apply;
    var a, b := Register(1, [], [], policy), On(1, OpAddRequirement(UNBOUNDED));
    FirstCall(a);
    assert [a, b][..1] == [a];
    assert EngineRun(Started(true), [a, b]) == Perform(EngineRun(Started(true), [a]), b).e;
    UnboundedAdded(policy);
    EngineLoadableIff([a, b], 1);
    RecordLoadsIffInputsGood([a, b]);
  }

  lemma WithRequirementEncodable(policy: Policy, r: Requirement)
    requires r.spec == []
    ensures Encodable(Created(1, [], [], policy).(contract := Contract(0, 1, [r], NO_GRANT)))
  {
    hide PutFront, PutRear, Frame;
    var v, w := Created(1, [], [], policy), Created(1, [], [], policy).(contract := Contract(0, 1, [r], NO_GRANT));
    FreshRearSize(1, [], [], policy);
    assert RearOf(w) == RearOf(v);
    FrontWithRequirement(policy, r, PutRear(RearOf(w), []));
    assert AllOf(w.contract.reqs, SizedRequirement);
  }

  lemma FrontWithRequirement(policy: Policy, r: Requirement, k: Bytes)
    requires r.spec == []
    ensures |PutFront(FrontOf(Created(1, [], [], policy).(contract := Contract(0, 1, [r], NO_GRANT))), k)| == 207 + |k|
  {
    hide PutU64, PutStr, PutPolicy, PutContract, PutDeps, PutPriority;
    PrimitiveSizes();
    EmptyRequirementsSize(k);
    EmptyRequirementsSize(PutPriority(NO_PRIORITY, k));
    var rest := PutDeps(NO_DEPS, PutPriority(NO_PRIORITY, k));
    OneRequirementSize(r, rest);
    PolicySize(policy, PutContract(Contract(0, 1, [r], NO_GRANT), rest));
  }

  lemma PartSizes(r: Requirement, k: Bytes)
    requires r.spec == []
    ensures |PutRequirement(r, k)| == 26 + |k| && |PutGrant(NO_GRANT, k)| == 22 + |k|
  {
    hide PutU64, PutBool, PutCount, PutStr;
    PrimitiveSizes();
  }

  lemma OneRequirementSize(r: Requirement, k: Bytes)
    requires r.spec == []
    ensures |PutContract(Contract(0, 1, [r], NO_GRANT), k)| == 68 + |k|
  {
    hide PutU64, PutCount, PutRequirement, PutGrant;
    PrimitiveSizes();
    PartSizes(r, k);
    PartSizes(r, PutGrant(NO_GRANT, k));
    OneItem(r, PutGrant(NO_GRANT, k));
  }

  lemma OneItem(r: Requirement, k: Bytes)
    ensures PutMany(PutRequirement, [r], k) == PutRequirement(r, k)
  {
    hide PutRequirement;
    assert [r][1..] == [];
    assert PutMany(PutRequirement, [], k) == k;
  }
}

/** What the restart limit bounds over whole runs, and what it does not. */
module RestartLimit {
  import opened Basics
  import opened Vocabulary
  import opened Dependencies
  import opened Resources
  import opened Model
  import opened Lifecycle
  import opened Runs

  function Installed(op: Op): u32 {
    if op.OpSetPolicy? then op.policy.restart.maxRestarts else 0
  }

  /** The largest of `limit` and every limit installed by the calls. */
  function LargestLimit(limit: u32, calls: seq<Call>): u32 {
    if calls == [] then limit
    else
      var before, now := LargestLimit(limit, calls[..|calls| - 1]), Installed(calls[|calls| - 1].op);
      if before < now then now else before
  }

  /** How many calls of the run pass all four checks of planRestart. */
  function SlotsSpent(w: Workload, calls: seq<Call>): nat
    decreases |calls|
  {
    if calls == [] then 0
    else SlotsSpent(w, calls[..|calls| - 1]) + if SpendsSlot(Run(w, calls[..|calls| - 1]), calls[|calls| - 1].op) then 1 else 0
  }

  lemma ControlKeepsPolicy(w: Workload, op: Op, minted: u64)
    requires !TouchesEpisodes(op)
    ensures Apply(w, op, minted).w.policy == if op.OpSetPolicy? then op.policy else w.policy
  {
    hide Guarded, CompleteCancellation, TransitionOutcome, Gate, CurrentEpisode;
    GuardedFrame();
    CompoundCalls();
  }

  lemma EpisodeCallKeepsPolicy(w: Workload, op: Op, minted: u64)
    requires TouchesEpisodes(op)
    ensures Apply(w, op, minted).w.policy == w.policy
  {
    hide Guarded, TransitionOutcome, CompletionEvidence, FindEpisode, CurrentEpisode;
    hide StartEpisode, CommitMigration, CommitCompletion, CompleteSuspend;
    GuardedFrame();
    CompoundCalls();
  }

  /** Only setPolicy changes the policy. */
  lemma PolicyFrame(w: Workload, c: Call)
    ensures Made(w, c).w.policy == if c.op.OpSetPolicy? then c.op.policy else w.policy
  {
    hide Apply;
    if TouchesEpisodes(c.op) {
      EpisodeCallKeepsPolicy(w, c.op, c.minted);
    } else {
      ControlKeepsPolicy(w, c.op, c.minted);
    }
  }

  /**
   * Over any run, the restart count is the number of calls that passed all four checks, agrees with the
   * restart generation, and never exceeds the largest limit ever installed.
   */
  lemma {:induction false} RestartsNeverExceedLimit(w: Workload, limit: u32, calls: seq<Call>)
    requires RestartsAgree(w) && w.restarts.count <= limit && w.policy.restart.maxRestarts <= limit
    ensures var v := Run(w, calls);
            && v.restarts.count == w.restarts.count + SlotsSpent(w, calls)
            && v.restarts.count <= LargestLimit(limit, calls)
            && v.policy.restart.maxRestarts <= LargestLimit(limit, calls)
            && RestartsAgree(v)
    decreases |calls|
  {
    if calls != [] {
      hide Made;
      hide RestartClassAllowed;
      var u, c := Run(w, calls[..|calls| - 1]), calls[|calls| - 1];
      RestartsNeverExceedLimit(w, limit, calls[..|calls| - 1]);
      MadeSpends(u, c);
      PolicyFrame(u, c);
    }
  }

  lemma MadeSpends(w: Workload, c: Call)
    requires RestartsAgree(w)
    ensures RestartsAgree(Made(w, c).w)
    ensures Made(w, c).w.restarts.count == w.restarts.count + if SpendsSlot(w, c.op) then 1 else 0
  {
    hide Apply, SpendsSlot;
    SlotSpentIff(w, c.op, c.minted);
  }

  // ---- Which starts the limit bounds ---------------------------------------

  predicate Starts(w: Workload, c: Call) {
    c.op.OpStartEpisode? && Made(w, c).out.ALLOW?
  }

  function StartCount(w: Workload, calls: seq<Call>): nat
    decreases |calls|
  {
    if calls == [] then 0
    else StartCount(w, calls[..|calls| - 1]) + if Starts(Run(w, calls[..|calls| - 1]), calls[|calls| - 1]) then 1 else 0
  }

  /** A restart has been planned since the last start: RESTART_PENDING was entered, whatever was settled since. */
  predicate Covered(w: Workload, calls: seq<Call>)
    decreases |calls|
  {
    if calls == [] then w.state.RESTART_PENDING?
    else
      && !Starts(Run(w, calls[..|calls| - 1]), calls[|calls| - 1])
      && (Covered(w, calls[..|calls| - 1]) || Run(w, calls).state.RESTART_PENDING?)
  }

  function CoveredStarts(w: Workload, calls: seq<Call>): nat
    decreases |calls|
  {
    if calls == [] then 0
    else
      var init := calls[..|calls| - 1];
      CoveredStarts(w, init) + if Starts(Run(w, init), calls[|calls| - 1]) && Covered(w, init) then 1 else 0
  }

  /** RESTART_PENDING is entered by spending a slot and in no other way. */
  lemma PendingIsPaid(w: Workload, c: Call)
    requires !w.state.RESTART_PENDING? && Made(w, c).w.state.RESTART_PENDING?
    ensures SpendsSlot(w, c.op)
  {
    if TouchesEpisodes(c.op) {
      EpisodeCallNotPending(w, c.op, c.minted);
    } else {
      ControlPending(w, c.op, c.minted);
    }
    hide Apply, SpendsSlot;
  }

  lemma EpisodeCallNotPending(w: Workload, op: Op, minted: u64)
    requires !w.state.RESTART_PENDING? && TouchesEpisodes(op)
    ensures !Apply(w, op, minted).w.state.RESTART_PENDING?
  {
    hide Guarded, StartEpisode, CommitMigration, CommitCompletion, CompleteSuspend, TransitionOutcome;
    hide FindEpisode, CurrentEpisode, CompletionEvidence;
    GuardedFrame();
    CompoundCalls();
  }

  lemma ControlPending(w: Workload, op: Op, minted: u64)
    requires !w.state.RESTART_PENDING? && !TouchesEpisodes(op)
    ensures Apply(w, op, minted).w.state.RESTART_PENDING? ==> SpendsSlot(w, op)
  {
    hide Guarded, CompleteCancellation, TransitionOutcome, CurrentEpisode, RestartClassAllowed;
    GuardedFrame();
    CompoundCalls();
  }

  /** An accepted start leaves RESTART_PENDING, adds an episode and never spends a slot. */
  lemma StartIsFree(w: Workload, c: Call)
    requires Starts(w, c)
    ensures var v := Made(w, c).w;
            && v.state.STARTING? && |v.episodes| == |w.episodes| + 1 && v.restarts == w.restarts
            && ResumeEligible(w.state) && !SpendsSlot(w, c.op)
  {
    hide StartEpisode;
    StartAllOrNothing(w, c.minted, c.op.owner, c.op.ownerGen);
  }

  /**
   * The exact accounting, for every run of every workload: each start that follows a planned restart is
   * paid for by a slot of its own, and a plan not yet used is paid for as well.
   */
  lemma {:induction false} CoveredStartsArePaid(w: Workload, calls: seq<Call>)
    ensures CoveredStarts(w, calls) + (if Covered(w, calls) then 1 else 0)
            <= SlotsSpent(w, calls) + if w.state.RESTART_PENDING? then 1 else 0
    ensures Run(w, calls).state.RESTART_PENDING? ==> Covered(w, calls)
    decreases |calls|
  {
    hide Made, SpendsSlot;
    if calls != [] {
      var u, c := Run(w, calls[..|calls| - 1]), calls[|calls| - 1];
      CoveredStartsArePaid(w, calls[..|calls| - 1]);
      if Starts(u, c) {
        StartIsFree(u, c);
      } else if !u.state.RESTART_PENDING? && Made(u, c).w.state.RESTART_PENDING? {
        PendingIsPaid(u, c);
      }
    }
  }

  /** Every start after the first one follows a planned restart. */
  predicate RestartsAreThePlanned(w: Workload, calls: seq<Call>) {
    StartCount(w, calls) <= 1 + CoveredStarts(w, calls)
  }

  /** The same, asked of a caller before each start: is it the first one, or has a restart been planned since the last? */
  predicate PlansBeforeStarting(w: Workload, calls: seq<Call>) {
    forall i | 0 <= i < |calls| && Starts(Run(w, calls[..i]), calls[i]) :: StartCount(w, calls[..i]) == 0 || Covered(w, calls[..i])
  }

  lemma {:induction false} PlanningSuffices(w: Workload, calls: seq<Call>)
    requires PlansBeforeStarting(w, calls)
    ensures RestartsAreThePlanned(w, calls)
    ensures StartCount(w, calls) == 0 ==> CoveredStarts(w, calls) == 0
    decreases |calls|
  {
    hide Made, Covered;
    if calls != [] {
      var init := calls[..|calls| - 1];
      forall i | 0 <= i < |init| && Starts(Run(w, init[..i]), init[i]) ensures StartCount(w, init[..i]) == 0 || Covered(w, init[..i]) {
        assert init[..i] == calls[..i] && init[i] == calls[i];
      }
      PlanningSuffices(w, init);
      var n := |calls| - 1;
      assert Starts(Run(w, calls[..n]), calls[n]) ==> StartCount(w, calls[..n]) == 0 || Covered(w, calls[..n]);
    }
  }

  lemma NoStartNoEpisode(w: Workload, c: Call)
    requires Inv(w) && w.episodes == [] && !Starts(w, c)
    ensures Made(w, c).w.episodes == []
  {
    hide Apply, LogOk, Handoff, GenerationCounts, RestartsAgree;
    StepKeepsGenerationOf(w, c);
    if c.op.OpCommitMigration? && Made(w, c).out.ALLOW? {
      MigrationNeedsEpisode(w, c);
    }
  }

  lemma StepKeepsGenerationOf(w: Workload, c: Call)
    requires Inv(w)
    ensures var s := Made(w, c);
            |s.w.episodes| == |w.episodes| + if s.out.ALLOW? && (c.op.OpStartEpisode? || c.op.OpCommitMigration?) then 1 else 0
  {
    hide Apply, LogOk, Handoff, RestartsAgree, Phase;
    StepKeepsGeneration(w, c.op, c.minted);
  }

  lemma MigrationNeedsEpisode(w: Workload, c: Call)
    requires Phase(w) && c.op.OpCommitMigration? && Made(w, c).out.ALLOW?
    ensures w.episodes != []
  {
    hide CommitMigration;
    MigrateAllOrNothing(w, c.op.expecting, c.op.worker, c.op.boot);
  }

  /** Before its first start, a workload without episodes has nothing to restart. */
  lemma {:induction false} FirstStartIsNotCovered(w: Workload, calls: seq<Call>)
    requires Inv(w) && w.episodes == []
    ensures StartCount(w, calls) == 0 ==> Run(w, calls).episodes == [] && !Covered(w, calls)
    decreases |calls|
  {
    hide Inv, Made;
    RunKeepsInv(w, calls);
    PendingHasEpisode(Run(w, calls));
    if calls != [] {
      var init, c := calls[..|calls| - 1], calls[|calls| - 1];
      FirstStartIsNotCovered(w, init);
      RunKeepsInv(w, init);
      if StartCount(w, calls) == 0 {
        NoStartNoEpisode(Run(w, init), c);
      }
    }
  }

  lemma PendingHasEpisode(w: Workload)
    requires Inv(w)
    ensures w.state.RESTART_PENDING? ==> w.episodes != []
  {
    hide LogOk, Handoff;
  }

  lemma {:induction false} UnplannedStartsShow(w: Workload, calls: seq<Call>)
    requires Inv(w) && w.episodes == []
    ensures StartCount(w, calls) > 0 ==> StartCount(w, calls) >= 1 + CoveredStarts(w, calls)
    ensures StartCount(w, calls) == 0 ==> CoveredStarts(w, calls) == 0
    ensures RestartsAreThePlanned(w, calls) ==> PlansBeforeStarting(w, calls)
    decreases |calls|
  {
    hide Made, Covered, Inv;
    if calls != [] {
      var n, init := |calls| - 1, calls[..|calls| - 1];
      UnplannedStartsShow(w, init);
      FirstStartIsNotCovered(w, init);
      if RestartsAreThePlanned(w, calls) {
        forall i | 0 <= i < |calls| && Starts(Run(w, calls[..i]), calls[i])
          ensures StartCount(w, calls[..i]) == 0 || Covered(w, calls[..i])
        {
          if i < n {
            assert init[..i] == calls[..i] && init[i] == calls[i];
          }
        }
      }
    }
  }

  /** Exactly when each start after the first is paid for by a restart: when a restart was planned before it. */
  lemma PlannedIff(w: Workload, calls: seq<Call>)
    requires Inv(w) && w.episodes == []
    ensures PlansBeforeStarting(w, calls) <==> StartCount(w, calls) <= 1 + CoveredStarts(w, calls)
  {
    hide PlansBeforeStarting, StartCount, CoveredStarts, Inv;
    UnplannedStartsShow(w, calls);
    if PlansBeforeStarting(w, calls) {
      PlanningSuffices(w, calls);
    }
  }

  /**
   * When the limit does bound starts: a fresh workload whose every start after the first follows a planned
   * restart is started at most once more than the largest limit ever installed.
   */
  lemma PlannedStartsStayWithinLimit(id: u64, name: Bytes, intent: Bytes, policy: Policy, calls: seq<Call>)
    requires PlansBeforeStarting(Created(id, name, intent, policy), calls)
    ensures StartCount(Created(id, name, intent, policy), calls) <= 1 + LargestLimit(policy.restart.maxRestarts, calls)
  {
    hide PlansBeforeStarting, StartCount, CoveredStarts, SlotsSpent, LargestLimit, Run;
    var w := Created(id, name, intent, policy);
    PlanningSuffices(w, calls);
    CoveredStartsArePaid(w, calls);
    RestartsNeverExceedLimit(w, policy.restart.maxRestarts, calls);
  }

  /** The converse: a start that no plan covers adds an episode and leaves the restart count alone, at any count. */
  lemma UncoveredStartIsFree(w: Workload, calls: seq<Call>, c: Call)
    requires Starts(Run(w, calls), c) && !Covered(w, calls)
    ensures var u, v := Run(w, calls), Run(w, calls + [c]);
            && (u.state.READY? || u.state.SUSPENDED? || u.state.PREEMPTED? || u.state.RECOVERING?)
            && |v.episodes| == |u.episodes| + 1 && v.restarts == u.restarts
            && CoveredStarts(w, calls + [c]) == CoveredStarts(w, calls)
  {
    hide Made;
    assert (calls + [c])[..|calls|] == calls;
    CoveredStartsArePaid(w, calls);
    StartIsFree(Run(w, calls), c);
  }

  // ---- Recovery does not pass through the limit ----------------------------

  /** Brings a fresh workload without requirements or dependencies to READY. */
  const GET_READY: seq<Call> := [Call(OpApplyGrant(NO_GRANT), 0), Call(OpValidate, 0), Call(OpSettle, 0)]

  /** One lost worker and a fresh start from RECOVERING, with no planRestart in between. */
  function Cycle(k: nat): seq<Call>
    requires k < TWO63
  {
    [Call(OpStartEpisode(1, 1), 1000 + k), Call(OpAdmitDispatch(1000 + k, 1, 1), 0), Call(OpWorkerLost(1, 1, 2 + k), 0)]
  }

  function Cycles(n: nat): seq<Call>
    requires n <= TWO63
  {
    if n == 0 then [] else Cycles(n - 1) + Cycle(n - 1)
  }

  predicate AfterCycles(w: Workload, n: nat) {
    && Inv(w) && |w.episodes| == n && n <= TWO63
    && (w.state.READY? || w.state.RECOVERING?) && !w.cancel.finished && w.restarts.count == 0
    && forall i | 0 <= i < n :: w.episodes[i].id == 1000 + i
  }

  lemma RunThree(w: Workload, a: Call, b: Call, c: Call)
    ensures Run(w, [a, b, c]) == Made(Made(Made(w, a).w, b).w, c).w
  {
    hide Made;
    assert [a, b, c][..2] == [a, b] && [a, b][..1] == [a] && [a][..0] == [];
    assert Run(w, [a]) == Made(Run(w, []), a).w;
    assert Run(w, [a, b]) == Made(Run(w, [a]), b).w;
  }

  predicate Idle(w: Workload, s: WorkloadState) {
    && w.state == s && Satisfied(w.contract) && DepsReady(w.deps) && w.episodes == []
    && !w.cancel.finished && w.restarts.count == 0
  }

  lemma GrantedIdle(w: Workload)
    requires w.state.CREATED? && w.contract == NO_CONTRACT && DepsReady(w.deps) && w.episodes == []
    requires !w.cancel.finished && w.restarts.count == 0
    ensures Idle(Made(w, GET_READY[0]).w, CREATED)
  {
  }

  lemma ValidatedIdle(w: Workload)
    requires Idle(w, CREATED)
    ensures Idle(Made(w, GET_READY[1]).w, VALIDATING)
  {
    hide Satisfied, DepsReady;
  }

  lemma SettledIdle(w: Workload)
    requires Idle(w, VALIDATING)
    ensures Idle(Made(w, GET_READY[2]).w, READY)
  {
    hide Satisfied, DepsReady;
  }

  lemma GettingReady(w: Workload)
    requires w.state.CREATED? && w.contract == NO_CONTRACT && DepsReady(w.deps) && w.episodes == []
    requires !w.cancel.finished && w.restarts.count == 0
    ensures Idle(Run(w, GET_READY), READY)
  {
    hide Made, Idle;
    RunThree(w, GET_READY[0], GET_READY[1], GET_READY[2]);
    GrantedIdle(w);
    ValidatedIdle(Made(w, GET_READY[0]).w);
    SettledIdle(Made(Made(w, GET_READY[0]).w, GET_READY[1]).w);
  }

  lemma Readied(id: u64, name: Bytes, intent: Bytes, policy: Policy)
    ensures AfterCycles(Run(Created(id, name, intent, policy), GET_READY), 0)
  {
    hide Run, Inv, Idle;
    var w := Created(id, name, intent, policy);
    CreatedInv(id, name, intent, policy);
    RunKeepsInv(w, GET_READY);
    GettingReady(w);
    IdleIsReady(Run(w, GET_READY));
  }

  lemma IdleIsReady(w: Workload)
    requires Inv(w) && Idle(w, READY)
    ensures AfterCycles(w, 0)
  {
  }

  lemma OneCycle(w: Workload, n: nat)
    requires AfterCycles(w, n) && n < TWO63
    ensures AfterCycles(Run(w, Cycle(n)), n + 1)
  {
    hide Made, Inv;
    var a, b, c := Cycle(n)[0], Cycle(n)[1], Cycle(n)[2];
    RunThree(w, a, b, c);
    var w1 := Made(w, a).w;
    var w2 := Made(w1, b).w;
    StartedFor(w, n);
    AdmittedFor(w1, n);
    StepKeepsInv(w, a);
    StepKeepsInv(w1, b);
    StepKeepsInv(w2, c);
    LostFor(w2, n);
  }

  predicate Launched(w: Workload, n: nat, s: WorkloadState) {
    && |w.episodes| == n + 1 && w.state == s && !w.cancel.finished && w.restarts.count == 0
    && w.generation == n + 2
    && forall i | 0 <= i <= n :: w.episodes[i].id == 1000 + i
  }

  lemma StartedFor(w: Workload, n: nat)
    requires AfterCycles(w, n) && n < TWO63
    ensures var v := Made(w, Call(OpStartEpisode(1, 1), 1000 + n)).w;
            Launched(v, n, STARTING) && v.episodes[n].state.EP_ADMITTED?
  {
    hide Inv, StartEpisode;
    GenerationExact(w);
    StartAllOrNothing(w, 1000 + n, 1, 1);
  }

  lemma AdmittedFor(w: Workload, n: nat)
    requires n < TWO63 && Launched(w, n, STARTING) && w.episodes[n].state.EP_ADMITTED?
    ensures var v := Made(w, Call(OpAdmitDispatch(1000 + n, 1, 1), 0)).w;
            Launched(v, n, RUNNING) && v.episodes[n].worker == 1 && v.episodes[n].boot == 1
  {
    hide Guarded, TransitionOutcome;
    assert FindEpisode(w.episodes, 1000 + n) == n;
    GuardedFrame();
    EpisodeEdges();
  }

  lemma LostFor(w: Workload, n: nat)
    requires n < TWO63 && Inv(w) && Launched(w, n, RUNNING) && w.episodes[n].worker == 1 && w.episodes[n].boot == 1
    ensures var v := Made(w, Call(OpWorkerLost(1, 1, 2 + n), 0)).w; Launched(v, n, RECOVERING)
  {
    hide Guarded, TransitionOutcome, LogOk, Phase;
    assert CurrentEpisode(w.episodes) == Some(n);
    GuardedFrame();
    EpisodeEdges();
  }

  lemma {:induction false} ManyCycles(w: Workload, n: nat)
    requires AfterCycles(w, 0) && n <= TWO63
    ensures AfterCycles(Run(w, Cycles(n)), n)
  {
    hide AfterCycles, Made;
    if n > 0 {
      ManyCycles(w, n - 1);
      OneCycle(Run(w, Cycles(n - 1)), n - 1);
      RunAppends(w, Cycles(n - 1), Cycle(n - 1));
    }
  }

  /**
   * The limit bounds planRestart, not fresh episodes: under every policy - NEVER with limit 0 included -
   * there is a run that starts `n` episodes on lost workers and spends no restart.
   */
  lemma RecoveryBypassesLimit(id: u64, name: Bytes, intent: Bytes, policy: Policy, n: nat)
    requires n <= TWO63
    ensures var v := Run(Created(id, name, intent, policy), GET_READY + Cycles(n));
            |v.episodes| == n && v.restarts.count == 0 && v.policy == policy
  {
    hide Made, Inv;
    var w := Created(id, name, intent, policy);
    Readied(id, name, intent, policy);
    ManyCycles(Run(w, GET_READY), n);
    RunAppends(w, GET_READY, Cycles(n));
    CyclesKeepPolicy(w, n);
  }

  // ---- Neither does settling a start that was never dispatched --------------

  /** A start, and a settle that takes it back to READY: no worker, no loss, no recovery. */
  function Retry(k: nat): seq<Call>
    requires k < TWO63
  {
    [Call(OpStartEpisode(1, 1), 1000 + k), Call(OpSettle, 0)]
  }

  function Retries(n: nat): seq<Call>
    requires n <= TWO63
  {
    if n == 0 then [] else Retries(n - 1) + Retry(n - 1)
  }

  predicate AfterRetries(w: Workload, n: nat) {
    && w.state.READY? && Satisfied(w.contract) && DepsReady(w.deps) && |w.episodes| == n
    && !w.cancel.finished && w.restarts.count == 0
  }

  lemma RetryStarts(w: Workload, n: nat, minted: u64)
    requires AfterRetries(w, n)
    ensures var v := Made(w, Call(OpStartEpisode(1, 1), minted)).w; AfterRetries(v.(state := READY), n + 1) && v.state.STARTING?
  {
    hide StartEpisode, Satisfied, DepsReady;
    StartAllOrNothing(w, minted, 1, 1);
  }

  lemma RetrySettles(w: Workload, n: nat)
    requires AfterRetries(w.(state := READY), n) && w.state.STARTING?
    ensures AfterRetries(Made(w, Call(OpSettle, 0)).w, n)
  {
    hide Guarded, Satisfied, DepsReady;
    GuardedFrame();
  }

  lemma {:induction false} ManyRetries(w: Workload, n: nat)
    requires AfterRetries(w, 0) && n <= TWO63
    ensures AfterRetries(Run(w, Retries(n)), n)
  {
    hide AfterRetries, Made;
    if n > 0 {
      ManyRetries(w, n - 1);
      var u, a, b := Run(w, Retries(n - 1)), Retry(n - 1)[0], Retry(n - 1)[1];
      RunAppends(w, Retries(n - 1), Retry(n - 1));
      assert [a, b][..1] == [a] && [a][..0] == [];
      assert Run(u, [a]) == Made(Run(u, []), a).w;
      RetryStarts(u, n - 1, 1000 + (n - 1));
      RetrySettles(Made(u, a).w, n);
    }
  }

  lemma ReadiedIdle(id: u64, name: Bytes, intent: Bytes, policy: Policy)
    ensures AfterRetries(Run(Created(id, name, intent, policy), GET_READY), 0)
  {
    hide Run;
    GettingReady(Created(id, name, intent, policy));
  }

  /** A second way around the limit: settling after each start, without losing a worker or planning a restart. */
  lemma SettlingBypassesLimit(id: u64, name: Bytes, intent: Bytes, policy: Policy, n: nat)
    requires n <= TWO63
    ensures var v := Run(Created(id, name, intent, policy), GET_READY + Retries(n)); |v.episodes| == n && v.restarts.count == 0
  {
    hide Made;
    var w := Created(id, name, intent, policy);
    ReadiedIdle(id, name, intent, policy);
    ManyRetries(Run(w, GET_READY), n);
    RunAppends(w, GET_READY, Retries(n));
  }

  lemma {:induction false} NoSetPolicyKeepsPolicy(w: Workload, calls: seq<Call>)
    requires forall i | 0 <= i < |calls| :: !calls[i].op.OpSetPolicy?
    ensures Run(w, calls).policy == w.policy
    decreases |calls|
  {
    if calls != [] {
      hide Made;
      NoSetPolicyKeepsPolicy(w, calls[..|calls| - 1]);
      PolicyFrame(Run(w, calls[..|calls| - 1]), calls[|calls| - 1]);
    }
  }

  lemma {:induction false} CyclesSetNoPolicy(n: nat)
    requires n <= TWO63
    ensures forall i | 0 <= i < |Cycles(n)| :: !Cycles(n)[i].op.OpSetPolicy?
  {
    if n > 0 {
      CyclesSetNoPolicy(n - 1);
    }
  }

  lemma CyclesKeepPolicy(w: Workload, n: nat)
    requires n <= TWO63
    ensures Run(w, GET_READY + Cycles(n)).policy == w.policy
  {
    hide Made;
    CyclesSetNoPolicy(n);
    NoSetPolicyKeepsPolicy(w, GET_READY + Cycles(n));
  }
}
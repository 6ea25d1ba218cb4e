/** The 1001st episode id can collide with a migrated episode's: the bound of Identities is the best possible. */
module Collision {
  import opened Basics
  import opened Vocabulary
  import opened Resources
  import opened Model
  import opened Lifecycle
  import opened Runs
  import opened Guarantees
  import opened RestartLimit
  import opened Engine
  import opened Identities

  const ID: u64 := 1

  const PREPARE: seq<Op> := [OpApplyGrant(NO_GRANT), OpValidate, OpSettle, OpStartEpisode(1, 1), OpAdmitDispatch(1000, 1, 1),
                             OpRequestMigration(2), OpCommitMigration(2, 2, 2)]

  const RECOVER: seq<Op> := [OpWorkerLost(2, 2, 3), OpStartEpisode(1, 1)]

  function Calls(ops: seq<Op>): seq<EngineCall> {
    seq(|ops|, i requires 0 <= i < |ops| => On(ID, ops[i]))
  }

  function RefusedStarts(n: nat): seq<Op> {
    seq(n, _ => OpStartEpisode(1, 1))
  }

  /** Create, run and migrate once, ask 999 times in vain for an episode, lose the worker, start again. */
  function Script(policy: Policy): seq<EngineCall> {
    [Register(ID, [], [], policy)] + Calls(PREPARE) + Calls(RefusedStarts(999)) + Calls(RECOVER)
  }

  // ---- One workload and one counter ----------------------------------------

  /** The engine's only workload and its id counter. */
  datatype Seat = Seat(w: Workload, counter: u64)

  function Moved(s: Seat, op: Op): Seat {
    Seat(Made(s.w, Call(op, s.counter)).w, if op.OpStartEpisode? then Wrap(s.counter + 1) else s.counter)
  }

  function Seated(s: Seat, ops: seq<Op>): Seat
    decreases |ops|
  {
    if ops == [] then s else Moved(Seated(s, ops[..|ops| - 1]), ops[|ops| - 1])
  }

  lemma {:induction false} SeatedAppends(s: Seat, a: seq<Op>, b: seq<Op>)
    ensures Seated(s, a + b) == Seated(Seated(s, a), b)
    decreases |b|
  {
    hide Moved;
    if b == [] {
      assert a + b == a;
    } else {
      assert (a + b)[..|a + b| - 1] == a + b[..|b| - 1];
      SeatedAppends(s, a, b[..|b| - 1]);
    }
  }

  predicate Seats(e: EngineState, s: Seat) {
    ID in e.workloads && e.workloads[ID] == s.w && e.counter == s.counter
  }

  function Starts(ops: seq<Op>): nat {
    if ops == [] then 0 else Starts(ops[..|ops| - 1]) + if ops[|ops| - 1].OpStartEpisode? then 1 else 0
  }

  lemma {:induction false} EngineSeats(calls: seq<EngineCall>, s: Seat, ops: seq<Op>)
    requires Seats(EngineRun(Started(false), calls), s)
    ensures Seats(EngineRun(Started(false), calls + Calls(ops)), Seated(s, ops))
    ensures IdsMinted(Started(false), calls + Calls(ops)) == IdsMinted(Started(false), calls) + Starts(ops)
    decreases |ops|
  {
    hide Apply, Kept;
    if ops == [] {
      assert calls + Calls(ops) == calls;
    } else {
      var init, op := ops[..|ops| - 1], ops[|ops| - 1];
      assert (calls + Calls(ops))[..|calls + Calls(ops)| - 1] == calls + Calls(init);
      assert (calls + Calls(ops))[|calls + Calls(ops)| - 1] == On(ID, op);
      EngineSeats(calls, s, init);
    }
  }

  // ---- The script, stage by stage ------------------------------------------

  predicate Named(es: seq<Episode>, ids: seq<u64>) {
    |es| == |ids| && forall i | 0 <= i < |es| :: es[i].id == ids[i]
  }

  predicate Stage(w: Workload, state: WorkloadState, ids: seq<u64>) {
    && Inv(w) && w.state == state && Named(w.episodes, ids) && !w.cancel.finished
    && !w.policy.migration.eligibility.MIG_NONE?
  }

  lemma StageGeneration(w: Workload, state: WorkloadState, ids: seq<u64>)
    requires Stage(w, state, ids) && |ids| < 10
    ensures w.generation == 1 + |ids| && Inv(w)
  {
    hide Inv;
    GenerationExact(w);
  }

  lemma UnmintedCall(w: Workload, op: Op, minted: u64)
    requires !op.OpStartEpisode?
    ensures Made(w, Call(op, minted)) == Made(w, Call(op, 0))
  {
    hide Guarded, Settle, AdmitDispatch, ReportProgress, MarkCompleted, CommitCompletion, WorkerLost, PlanRestart;
    hide RequestSuspend, CompleteSuspend, RequestResume, RequestMigration, CommitMigration, RequestCancellation, CompleteCancellation;
  }

  lemma GetsReady(policy: Policy)
    requires !policy.migration.eligibility.MIG_NONE?
    ensures var s := Seated(Seat(Created(ID, [], [], policy), 1000), PREPARE[..3]);
            s.counter == 1000 && Stage(s.w, READY, []) && s.w.migrations.counter == FIRST_MIGRATION_ID
  {
    hide Apply, Inv;
    var w := Created(ID, [], [], policy);
    Readied(ID, [], [], policy);
    ReadyWithoutEpisodes(Run(w, GET_READY));
    CyclesKeepPolicy(w, 0);
    assert GET_READY + Cycles(0) == GET_READY;
    RunThree(w, GET_READY[0], GET_READY[1], GET_READY[2]);
    SeatedThree(Seat(w, 1000), PREPARE[0], PREPARE[1], PREPARE[2]);
    assert PREPARE[..3] == [PREPARE[0], PREPARE[1], PREPARE[2]];
    UnmintedCall(w, PREPARE[0], 1000);
    UnmintedCall(Made(w, GET_READY[0]).w, PREPARE[1], 1000);
    UnmintedCall(Made(Made(w, GET_READY[0]).w, GET_READY[1]).w, PREPARE[2], 1000);
    OthersKeepCast(w, GET_READY[0]);
    OthersKeepCast(Made(w, GET_READY[0]).w, GET_READY[1]);
    OthersKeepCast(Made(Made(w, GET_READY[0]).w, GET_READY[1]).w, GET_READY[2]);
  }

  lemma ReadyWithoutEpisodes(w: Workload)
    requires AfterCycles(w, 0)
    ensures w.state.READY? && Inv(w) && w.episodes == [] && !w.cancel.finished
  {
    hide LogOk, Handoff;
  }

  lemma SeatedThree(s: Seat, a: Op, b: Op, c: Op)
    ensures Seated(s, [a, b, c]) == Moved(Moved(Moved(s, a), b), c)
  {
    hide Moved;
    assert [a, b, c][..2] == [a, b] && [a, b][..1] == [a] && [a][..0] == [];
    assert Seated(s, [a]) == Moved(Seated(s, []), a);
    assert Seated(s, [a, b]) == Moved(Seated(s, [a]), b);
  }

  /** A start from an eligible state adds an admitted episode with the minted id. */
  lemma StageStart(w: Workload, state: WorkloadState, ids: seq<u64>, minted: u64)
    requires Stage(w, state, ids) && ResumeEligible(state)
    ensures var v := Made(w, Call(OpStartEpisode(1, 1), minted)).w;
            && Stage(v, STARTING, ids + [minted]) && v.episodes[|ids|].state.EP_ADMITTED?
            && v.migrations.counter == w.migrations.counter
  {
    hide Inv, StartEpisode;
    StepKeepsInv(w, Call(OpStartEpisode(1, 1), minted));
    StartAllOrNothing(w, minted, 1, 1);
  }

  lemma StageRefusedStart(w: Workload, ids: seq<u64>, minted: u64)
    requires Stage(w, RUNNING, ids)
    ensures Made(w, Call(OpStartEpisode(1, 1), minted)).w == w
  {
    hide Inv;
  }

  lemma StageAdmit(w: Workload, minted: u64)
    requires Stage(w, STARTING, [1000]) && w.episodes[0].state.EP_ADMITTED?
    ensures var v := Made(w, Call(OpAdmitDispatch(1000, 1, 1), minted)).w;
            Stage(v, RUNNING, [1000]) && v.migrations.counter == w.migrations.counter
  {
    hide Inv, Guarded, TransitionOutcome;
    StepKeepsInv(w, Call(OpAdmitDispatch(1000, 1, 1), minted));
    GuardedFrame();
    EpisodeEdges();
    assert FindEpisode(w.episodes, 1000) == 0;
  }

  lemma StageAskMigration(w: Workload, minted: u64)
    requires Stage(w, RUNNING, [1000])
    ensures var v := Made(w, Call(OpRequestMigration(2), minted)).w;
            Stage(v, MIGRATION_PENDING, [1000]) && v.migrations.counter == w.migrations.counter
  {
    hide Inv, Guarded;
    StageGeneration(w, RUNNING, [1000]);
    StepKeepsInv(w, Call(OpRequestMigration(2), minted));
    GuardedFrame();
  }

  lemma StageMigrate(w: Workload, minted: u64)
    requires Stage(w, MIGRATION_PENDING, [1000]) && w.migrations.counter == FIRST_MIGRATION_ID
    ensures var v := Made(w, Call(OpCommitMigration(2, 2, 2), minted)).w;
            Stage(v, RUNNING, [1000, 2000]) && v.episodes[1].worker == 2 && v.episodes[1].boot == 2
  {
    hide Inv, CommitMigration;
    StageGeneration(w, MIGRATION_PENDING, [1000]);
    StepKeepsInv(w, Call(OpCommitMigration(2, 2, 2), minted));
    MigrateAllOrNothing(w, 2, 2, 2);
  }

  lemma StageLose(w: Workload, minted: u64)
    requires Stage(w, RUNNING, [1000, 2000]) && w.episodes[1].worker == 2 && w.episodes[1].boot == 2
    ensures var v := Made(w, Call(OpWorkerLost(2, 2, 3), minted)).w; Stage(v, RECOVERING, [1000, 2000])
  {
    hide Inv, Guarded, TransitionOutcome, CurrentEpisode;
    StageGeneration(w, RUNNING, [1000, 2000]);
    StepKeepsInv(w, Call(OpWorkerLost(2, 2, 3), minted));
    LastIsCurrent(w);
    GuardedFrame();
    EpisodeEdges();
  }

  lemma LastIsCurrent(w: Workload)
    requires Inv(w) && w.episodes != []
    ensures CurrentEpisode(w.episodes) == Some(|w.episodes| - 1)
  {
    hide LogOk, Phase, GenerationCounts, RestartsAgree;
  }

  lemma SeatedSnoc(s: Seat, ops: seq<Op>, n: nat)
    requires n < |ops|
    ensures Seated(s, ops[..n + 1]) == Moved(Seated(s, ops[..n]), ops[n])
  {
    hide Moved;
    assert ops[..n + 1][..n] == ops[..n];
  }

  lemma FirstEpisodeRuns(policy: Policy)
    requires !policy.migration.eligibility.MIG_NONE?
    ensures var s := Seated(Seat(Created(ID, [], [], policy), 1000), PREPARE[..5]);
            s.counter == 1001 && Stage(s.w, RUNNING, [1000]) && s.w.migrations.counter == FIRST_MIGRATION_ID
  {
    hide Apply, Stage, Seated;
    var start := Seat(Created(ID, [], [], policy), 1000);
    GetsReady(policy);
    SeatedSnoc(start, PREPARE, 3);
    SeatedSnoc(start, PREPARE, 4);
    assert [] + [1000] == [1000];
    EligibleReady();
    StageStart(Seated(start, PREPARE[..3]).w, READY, [], 1000);
    StageAdmit(Seated(start, PREPARE[..4]).w, 1001);
  }

  /** After the preparation the engine has minted one id, and the workload runs on a migrated episode. */
  lemma Prepared(policy: Policy)
    requires !policy.migration.eligibility.MIG_NONE?
    ensures var s := Seated(Seat(Created(ID, [], [], policy), 1000), PREPARE);
            && s.counter == 1001 && Stage(s.w, RUNNING, [1000, 2000])
            && s.w.episodes[1].worker == 2 && s.w.episodes[1].boot == 2
  {
    hide Apply, Stage, Seated;
    var start := Seat(Created(ID, [], [], policy), 1000);
    FirstEpisodeRuns(policy);
    SeatedSnoc(start, PREPARE, 5);
    SeatedSnoc(start, PREPARE, 6);
    assert PREPARE[..7] == PREPARE;
    StageAskMigration(Seated(start, PREPARE[..5]).w, 1001);
    StageMigrate(Seated(start, PREPARE[..6]).w, 1001);
  }

  lemma EligibleReady()
    ensures ResumeEligible(READY) && ResumeEligible(RECOVERING)
  {
  }

  /** Refused starts change the counter only. */
  lemma {:induction false} RefusedStartsMint(s: Seat, ids: seq<u64>, n: nat)
    requires Stage(s.w, RUNNING, ids) && s.counter + n < TWO64
    ensures Seated(s, RefusedStarts(n)) == Seat(s.w, s.counter + n) && Starts(RefusedStarts(n)) == n
  {
    hide Apply, Stage;
    if n > 0 {
      RefusedStartsMint(s, ids, n - 1);
      assert RefusedStarts(n)[..n - 1] == RefusedStarts(n - 1);
      StageRefusedStart(s.w, ids, s.counter + n - 1);
    }
  }

  lemma SeatedTwo(s: Seat, a: Op, b: Op)
    ensures Seated(s, [a, b]) == Moved(Moved(s, a), b)
  {
    hide Moved;
    assert [a, b][..1] == [a] && [a][..0] == [];
    assert Seated(s, [a]) == Moved(Seated(s, []), a);
  }

  lemma Registered(policy: Policy)
    ensures Seats(EngineRun(Started(false), [Register(ID, [], [], policy)]), Seat(Created(ID, [], [], policy), 1000))
    ensures IdsMinted(Started(false), [Register(ID, [], [], policy)]) == 0
  {
    var calls := [Register(ID, [], [], policy)];
    assert calls[..0] == [];
    assert EngineRun(Started(false), calls) == Perform(EngineRun(Started(false), []), calls[0]).e;
    hide Apply, Kept;
  }

  lemma StartCounts()
    ensures Starts(PREPARE) == 1 && Starts(RECOVER) == 1
  {
    assert PREPARE[..6][..5] == PREPARE[..5] && PREPARE[..5][..4] == PREPARE[..4] && PREPARE[..4][..3] == PREPARE[..3];
    assert PREPARE[..3][..2] == PREPARE[..2] && PREPARE[..2][..1] == PREPARE[..1] && PREPARE[..1][..0] == [];
    assert Starts(PREPARE[..1]) == 0 && Starts(PREPARE[..2]) == 0 && Starts(PREPARE[..3]) == 0 && Starts(PREPARE[..4]) == 1;
    assert Starts(PREPARE[..5]) == 1 && Starts(PREPARE[..6]) == 1;
    assert RECOVER[..1][..0] == [] && Starts(RECOVER[..1]) == 0;
  }

  lemma Recovered(s: Seat)
    requires Stage(s.w, RUNNING, [1000, 2000]) && s.w.episodes[1].worker == 2 && s.w.episodes[1].boot == 2 && s.counter == 2000
    ensures Stage(Seated(s, RECOVER).w, STARTING, [1000, 2000, 2000])
  {
    hide Apply, Stage;
    SeatedTwo(s, RECOVER[0], RECOVER[1]);
    assert RECOVER == [RECOVER[0], RECOVER[1]] && [1000, 2000] + [2000] == [1000, 2000, 2000];
    EligibleReady();
    StageLose(s.w, 2000);
    StageStart(Moved(s, RECOVER[0]).w, RECOVERING, [1000, 2000], 2000);
  }

  lemma Deafened(w: Workload, gen: u64, delta: u64, durable: bool)
    requires Stage(w, STARTING, [1000, 2000, 2000])
    ensures w.episodes[2].authoritative
    ensures var r := ReportProgress(w, 2000, gen, delta, durable); r.w == w && !r.out.ALLOW?
  {
    hide LogOk, Phase, GenerationCounts, RestartsAgree, MayReport, ReportProgress;
    assert w.episodes[1].id == 2000;
    WhoMayReportIff(w, 2000, gen);
    RefusedUnlessMayReport(w, 2000, gen, delta, durable);
  }

  /**
   * One id more than 1000 is one too many: under any policy that allows migration, the script makes the
   * engine mint 1001 ids, gives the authoritative episode the id of a migrated one before it, and from
   * then on refuses all progress of the episode that alone may make progress.
   */
  lemma ThousandAndFirstIdCollides(policy: Policy, gen: u64, delta: u64, durable: bool)
    requires !policy.migration.eligibility.MIG_NONE?
    ensures IdsMinted(Started(false), Script(policy)) == 1001
    ensures var e := EngineRun(Started(false), Script(policy));
            && ID in e.workloads
            && var w := e.workloads[ID];
               && w.state.STARTING? && !w.cancel.finished
               && |w.episodes| == 3 && w.episodes[1].id == 2000 && w.episodes[2].id == 2000 && w.episodes[2].authoritative
               && var r := ReportProgress(w, 2000, gen, delta, durable); r.w == w && !r.out.ALLOW?
  {
    hide Apply, EngineRun, IdsMinted, Seated, Inv, ReportProgress, Starts;
    var first, start := [Register(ID, [], [], policy)], Seat(Created(ID, [], [], policy), 1000);
    Registered(policy);
    Prepared(policy);
    StartCounts();
    EngineSeats(first, start, PREPARE);
    var ready := Seated(start, PREPARE);
    EngineSeats(first + Calls(PREPARE), ready, RefusedStarts(999));
    RefusedStartsMint(ready, [1000, 2000], 999);
    EngineSeats(first + Calls(PREPARE) + Calls(RefusedStarts(999)), Seat(ready.w, 2000), RECOVER);
    Recovered(Seat(ready.w, 2000));
    Deafened(Seated(Seat(ready.w, 2000), RECOVER).w, gen, delta, durable);
  }
}

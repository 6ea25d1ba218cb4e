/** What holds in every run of calls, in any order, from callers holding any generation. */
module Runs {
  import opened Basics
  import opened Vocabulary
  import opened ProgressModel
  import opened Model
  import opened Lifecycle

  /** One call; `minted` is the id a start would use. */
  datatype Call = Call(op: Op, minted: u64)

  function Made(w: Workload, c: Call): Step {
    Apply(w, c.op, c.minted)
  }

  /** The workload after all calls. */
  function Run(w: Workload, calls: seq<Call>): Workload
    decreases |calls|
  {
    if calls == [] then w else Made(Run(w, calls[..|calls| - 1]), calls[|calls| - 1]).w
  }

  lemma {:induction false} RunAppends(w: Workload, a: seq<Call>, b: seq<Call>)
    ensures Run(w, a + b) == Run(Run(w, a), b)
    decreases |b|
  {
    if b == [] {
      assert a + b == a;
    } else {
      var n := |b| - 1;
      assert (a + b)[..|a + b| - 1] == a + b[..n];
      RunAppends(w, a, b[..n]);
    }
  }

  /** Everything a fresh workload has and every call keeps. */
  predicate Inv(w: Workload) {
    && LogOk(w)
    && Handoff(w.episodes, w.progress)
    && GenerationCounts(w)
    && RestartsAgree(w)
    && Phase(w)
  }

  lemma CreatedInv(id: u64, name: Bytes, intent: Bytes, policy: Policy)
    ensures Inv(Created(id, name, intent, policy))
  {
  }

  lemma StepKeepsInv(w: Workload, c: Call)
    requires Inv(w)
    ensures Inv(Made(w, c).w)
  {
    hide Apply, LogOk, Handoff, GenerationCounts, RestartsAgree, Phase;
    StepKeepsLog(w, c.op, c.minted);
    StepKeepsHandoff(w, c.op, c.minted);
    StepKeepsGeneration(w, c.op, c.minted);
    SlotSpentIff(w, c.op, c.minted);
    StepKeepsPhase(w, c.op, c.minted);
  }

  /** The invariant holds after every run. */
  lemma {:induction false} RunKeepsInv(w: Workload, calls: seq<Call>)
    requires Inv(w)
    ensures Inv(Run(w, calls))
    decreases |calls|
  {
    hide Inv, Made;
    if calls != [] {
      RunKeepsInv(w, calls[..|calls| - 1]);
      StepKeepsInv(Run(w, calls[..|calls| - 1]), calls[|calls| - 1]);
    }
  }

  // ---- The audit log -------------------------------------------------------

  /** Every record of a log that replays starts where the log before it ended. */
  lemma {:induction false} ReplayPrefix(log: seq<Record>, i: nat)
    requires i < |log| && Replay(log).Some?
    ensures Replay(log[..i]) == Some(log[i].from)
    ensures log[i].outcome.ALLOW? ==> CanTransition(log[i].from, log[i].to) && Replay(log[..i + 1]) == Some(log[i].to)
    decreases |log|
  {
    var n := |log| - 1;
    if i < n {
      ReplayPrefix(log[..n], i);
      assert log[..n][..i] == log[..i] && log[..n][..i + 1] == log[..i + 1];
    } else {
      assert log[..n + 1] == log;
    }
    hide CanTransition;
  }

  /** Once an accepted record enters a terminal state, nothing later is accepted. */
  lemma {:induction false} NothingAfterTerminal(log: seq<Record>, i: nat)
    requires i < |log| && Replay(log).Some? && log[i].outcome.ALLOW? && IsTerminal(log[i].to)
    ensures Replay(log) == Some(log[i].to)
    ensures forall j | i < j < |log| :: !log[j].outcome.ALLOW?
    decreases |log|
  {
    var n := |log| - 1;
    if i < n {
      NothingAfterTerminal(log[..n], i);
      assert forall j | i < j < n :: log[j] == log[..n][j];
    }
  }

  predicate LogOrdered(log: seq<Record>, generation: u64) {
    && (forall i | 0 <= i < |log| :: log[i].generation <= generation)
    && (forall i, j | 0 <= i < j < |log| :: log[i].generation <= log[j].generation)
  }

  lemma GuardedKeepsOrder()
    ensures forall w: Workload, to, e, r {:trigger Guarded(w, to, e, r)} ::
              LogOrdered(w.history, w.generation) ==> LogOrdered(Guarded(w, to, e, r).w.history, w.generation)
  {
    hide TransitionOutcome;
  }

  lemma OrderSurvivesAdvance()
    ensures forall log, g: u64 {:trigger LogOrdered(log, g)} ::
              LogOrdered(log, g) && g < TWO64 - 1 ==> LogOrdered(log, Next(g))
  {
  }

  lemma HandoverKeepsOrder(w: Workload, op: Op, minted: u64)
    requires op.OpStartEpisode? || op.OpCommitMigration?
    requires LogOrdered(w.history, w.generation) && w.generation < TWO64 - 1
    ensures var v := Apply(w, op, minted).w; LogOrdered(v.history, v.generation)
  {
    hide Guarded, TransitionOutcome, LogOrdered, Deauthorized, IsTerminal, Next;
    GuardedFrame();
    GuardedKeepsOrder();
    OrderSurvivesAdvance();
  }

  lemma OthersKeepOrder(w: Workload, op: Op, minted: u64)
    requires !op.OpStartEpisode? && !op.OpCommitMigration?
    requires LogOrdered(w.history, w.generation)
    ensures var v := Apply(w, op, minted).w; LogOrdered(v.history, w.generation)
  {
    hide Guarded, TransitionOutcome, Gate, CompletionEvidence, FindEpisode, CurrentEpisode, LogOrdered;
    hide IsTerminal, RestartClassAllowed, Next;
    GuardedFrame();
    GuardedKeepsOrder();
  }

  lemma StepKeepsOrder(w: Workload, c: Call)
    requires LogOrdered(w.history, w.generation) && w.generation < TWO64 - 1
    ensures var v := Made(w, c).w; LogOrdered(v.history, v.generation)
  {
    if c.op.OpStartEpisode? || c.op.OpCommitMigration? {
      HandoverKeepsOrder(w, c.op, c.minted);
    } else {
      OthersDoNotAppend(w, c.op, c.minted);
      OthersKeepOrder(w, c.op, c.minted);
    }
    hide Apply, LogOrdered;
  }

  /** Episodes, and with them generations, only ever grow in number along a run. */
  lemma {:induction false} EpisodesGrow(w: Workload, calls: seq<Call>)
    requires Inv(w)
    ensures |Run(w, calls).episodes| >= |w.episodes|
    decreases |calls|
  {
    hide Inv, Made;
    if calls != [] {
      var u := Run(w, calls[..|calls| - 1]);
      EpisodesGrow(w, calls[..|calls| - 1]);
      RunKeepsInv(w, calls[..|calls| - 1]);
      StepAppendsAtMostOne(u, calls[|calls| - 1]);
    }
  }

  /** The number of generations used so far fits in 64 bits. */
  predicate GenerationsLeft(w: Workload) {
    |w.episodes| + 2 < TWO64
  }

  /** As long as the counter has not wrapped, the generation is one more than the number of episodes. */
  lemma GenerationExact(w: Workload)
    requires Inv(w) && GenerationsLeft(w)
    ensures w.generation == 1 + |w.episodes|
  {
    hide LogOk, Handoff, Phase;
  }

  lemma StepAppendsAtMostOne(w: Workload, c: Call)
    requires Inv(w)
    ensures |w.episodes| <= |Made(w, c).w.episodes| <= |w.episodes| + 1
    ensures |Made(w, c).w.episodes| == |w.episodes| ==> Made(w, c).w.generation == w.generation
  {
    hide Apply, LogOk, Handoff, Phase;
    StepKeepsGeneration(w, c.op, c.minted);
  }

  /** Record generations never decrease, in any run short enough for the counter not to wrap. */
  lemma {:induction false} RunKeepsOrder(w: Workload, calls: seq<Call>)
    requires Inv(w) && LogOrdered(w.history, w.generation) && GenerationsLeft(Run(w, calls))
    ensures var v := Run(w, calls); LogOrdered(v.history, v.generation)
    decreases |calls|
  {
    hide Inv, Made, LogOrdered;
    if calls != [] {
      var init, c := calls[..|calls| - 1], calls[|calls| - 1];
      var u := Run(w, init);
      RunKeepsInv(w, init);
      StepAppendsAtMostOne(u, c);
      RunKeepsOrder(w, init);
      GenerationExact(u);
      StepKeepsOrder(u, c);
    }
  }

  // ---- Exact accounting ----------------------------------------------------

  /** An accepted progress report: which episode, how many units. */
  datatype Entry = Entry(episode: nat, delta: u64)

  /** The ledger line one call adds. */
  function Line(u: Workload, c: Call): seq<Entry> {
    if c.op.OpProgress? && Made(u, c).out.ALLOW? then [Entry(FindEpisode(u.episodes, c.op.episode), c.op.delta)] else []
  }

  function Ledger(w: Workload, calls: seq<Call>): seq<Entry>
    decreases |calls|
  {
    if calls == [] then []
    else Ledger(w, calls[..|calls| - 1]) + Line(Run(w, calls[..|calls| - 1]), calls[|calls| - 1])
  }

  /** Units accepted from episodes up to and including `k`. */
  function UnitsUpTo(ledger: seq<Entry>, k: int): nat {
    if ledger == [] then 0
    else
      var e := ledger[|ledger| - 1];
      UnitsUpTo(ledger[..|ledger| - 1], k) + if e.episode <= k then e.delta else 0
  }

  predicate EntriesBelow(ledger: seq<Entry>, n: nat) {
    forall i | 0 <= i < |ledger| :: ledger[i].episode < n
  }

  lemma {:induction false} UnitsAll(ledger: seq<Entry>, k: int, m: int)
    requires k >= -1 && EntriesBelow(ledger, k + 1) && k <= m
    ensures UnitsUpTo(ledger, k) == UnitsUpTo(ledger, m)
  {
    if ledger != [] {
      UnitsAll(ledger[..|ledger| - 1], k, m);
    }
  }

  /** Each episode stands where the accepted reports of it and its predecessors add up to. */
  predicate Accounted(es: seq<Episode>, p: Progress, ledger: seq<Entry>) {
    && EntriesBelow(ledger, |es|)
    && p.completed == UnitsUpTo(ledger, |es| - 1)
    && forall i | 0 <= i < |es| :: es[i].progress.completed == UnitsUpTo(ledger, i)
  }

  lemma ReportIs(w: Workload, c: Call)
    requires c.op.OpProgress?
    ensures Made(w, c) == ReportProgress(w, c.op.episode, c.op.episodeGen, c.op.delta, c.op.durable)
  {
    hide ReportProgress;
  }

  lemma LedgerGrows(ledger: seq<Entry>, e: Entry, k: int)
    ensures UnitsUpTo(ledger + [e], k) == UnitsUpTo(ledger, k) + if e.episode <= k then e.delta else 0
  {
    assert (ledger + [e])[..|ledger|] == ledger;
  }

  /** The last episode and the workload both move by `delta`. */
  lemma LastMoves(es: seq<Episode>, p: Progress, ledger: seq<Entry>, last: Episode, q: Progress, delta: u64)
    requires es != [] && Accounted(es, p, ledger)
    requires q.completed == p.completed + delta && last.progress.completed == q.completed
    ensures Accounted(es[|es| - 1 := last], q, ledger + [Entry(|es| - 1, delta)])
  {
    var e := Entry(|es| - 1, delta);
    forall k: int { LedgerGrows(ledger, e, k); }
    hide UnitsUpTo;
  }

  lemma ReportAccounted(w: Workload, c: Call, ledger: seq<Entry>)
    requires Handoff(w.episodes, w.progress) && Accounted(w.episodes, w.progress, ledger)
    requires c.op.OpProgress? && Made(w, c).out.ALLOW?
    ensures var v := Made(w, c).w; Accounted(v.episodes, v.progress, ledger + Line(w, c))
  {
    hide ReportProgress, Made, Accounted;
    ReportIs(w, c);
    ReportEffect(w, c.op.episode, c.op.episodeGen, c.op.delta, c.op.durable);
    var v, n := Made(w, c).w, |w.episodes| - 1;
    LastMoves(w.episodes, w.progress, ledger, v.episodes[n], v.progress, c.op.delta);
  }

  lemma AppendAccounted(es: seq<Episode>, p: Progress, ledger: seq<Entry>, e: Episode)
    requires Accounted(es, p, ledger) && e.progress == p
    ensures Accounted(Deauthorized(es) + [e], p, ledger)
  {
    UnitsAll(ledger, |es| - 1, |es|);
  }

  lemma StartAccounted(w: Workload, owner: u64, ownerGen: u64, minted: u64, ledger: seq<Entry>)
    requires Accounted(w.episodes, w.progress, ledger)
    ensures var v := Apply(w, OpStartEpisode(owner, ownerGen), minted).w; Accounted(v.episodes, v.progress, ledger)
  {
    hide Accounted, StartEpisode, Deauthorized;
    StartAllOrNothing(w, minted, owner, ownerGen);
    AppendAccounted(w.episodes, w.progress, ledger, AdmittedEpisode(w, minted, owner, ownerGen));
  }

  lemma MigrateAccounted(w: Workload, expecting: u64, worker: u64, boot: u64, minted: u64, ledger: seq<Entry>)
    requires Accounted(w.episodes, w.progress, ledger)
    ensures var v := Apply(w, OpCommitMigration(expecting, worker, boot), minted).w; Accounted(v.episodes, v.progress, ledger)
  {
    hide Accounted, CommitMigration, Deauthorized;
    MigrateAllOrNothing(w, expecting, worker, boot);
    AppendAccounted(w.episodes, w.progress, ledger, MigratedEpisode(w, worker, boot));
  }

  lemma RefusedReport(w: Workload, c: Call)
    requires Handoff(w.episodes, w.progress) && c.op.OpProgress? && !Made(w, c).out.ALLOW?
    ensures Made(w, c).w == w
  {
    hide ReportProgress;
    ReportEffect(w, c.op.episode, c.op.episodeGen, c.op.delta, c.op.durable);
  }

  lemma RelabelAccounted(w: Workload, c: Call, ledger: seq<Entry>)
    requires Accounted(w.episodes, w.progress, ledger) && !Reassigns(c.op)
    ensures var v := Made(w, c).w; Accounted(v.episodes, v.progress, ledger)
  {
    hide Apply;
    RelabelOnly(w, c.op, c.minted);
  }

  lemma StepAccounted(w: Workload, c: Call, ledger: seq<Entry>)
    requires Handoff(w.episodes, w.progress) && Accounted(w.episodes, w.progress, ledger)
    ensures var v := Made(w, c).w; Accounted(v.episodes, v.progress, ledger + Line(w, c))
  {
    hide Apply, Accounted, Handoff;
    if c.op.OpProgress? && Made(w, c).out.ALLOW? {
      ReportAccounted(w, c, ledger);
    } else {
      assert ledger + Line(w, c) == ledger;
      match c.op {
        case OpProgress(_, _, _, _) => RefusedReport(w, c);
        case OpStartEpisode(owner, ownerGen) => StartAccounted(w, owner, ownerGen, c.minted, ledger);
        case OpCommitMigration(expecting, worker, boot) => MigrateAccounted(w, expecting, worker, boot, c.minted, ledger);
        case _ => RelabelAccounted(w, c, ledger);
      }
    }
  }

  /**
   * After any run of a fresh workload: completed is exactly the sum of all accepted deltas, and each
   * episode ends where its own and its predecessors' accepted deltas add up to - so each starts where
   * its predecessor ended, none is lost and none is counted twice, with no wrap-around anywhere.
   */
  lemma {:induction false} ProgressIsAccounted(id: u64, name: Bytes, intent: Bytes, policy: Policy, calls: seq<Call>)
    ensures var v := Run(Created(id, name, intent, policy), calls);
            Accounted(v.episodes, v.progress, Ledger(Created(id, name, intent, policy), calls))
    decreases |calls|
  {
    if calls != [] {
      hide Made, Line, Accounted, Handoff, LogOk, Phase, GenerationCounts, RestartsAgree, Created;
      var w, init := Created(id, name, intent, policy), calls[..|calls| - 1];
      ProgressIsAccounted(id, name, intent, policy, init);
      CreatedInv(id, name, intent, policy);
      RunKeepsInv(w, init);
      StepAccounted(Run(w, init), calls[|calls| - 1], Ledger(w, init));
    }
  }
}

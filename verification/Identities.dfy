/** Episode ids: who can still report, and for how long ids stay distinct. */
module Identities {
  import opened Basics
  import opened Vocabulary
  import opened Model
  import opened Lifecycle
  import opened Runs
  import opened Guarantees
  import opened Engine

  // ---- Episodes keep their place and their id ------------------------------

  predicate SameIds(es: seq<Episode>, fs: seq<Episode>) {
    |es| <= |fs| && forall i | 0 <= i < |es| :: fs[i].id == es[i].id
  }

  /** The same episodes as before, by id, and no migrated one minted. */
  predicate SameCast(w: Workload, v: Workload) {
    |v.episodes| == |w.episodes| && SameIds(w.episodes, v.episodes) && v.migrations.counter == w.migrations.counter
  }

  lemma ReportKeepsCast(w: Workload, episode: u64, episodeGen: u64, delta: u64, durable: bool)
    ensures SameCast(w, ReportProgress(w, episode, episodeGen, delta, durable).w)
  {
    hide MayReport, IsTerminal, IsCancelling;
  }

  lemma OthersKeepCast(w: Workload, c: Call)
    requires !c.op.OpStartEpisode? && !c.op.OpCommitMigration?
    ensures SameCast(w, Made(w, c).w)
  {
    if c.op.OpProgress? {
      hide ReportProgress;
      ReportKeepsCast(w, c.op.episode, c.op.episodeGen, c.op.delta, c.op.durable);
    } else {
      hide Apply;
      RelabelOnly(w, c.op, c.minted);
    }
  }

  lemma StepKeepsIds(w: Workload, c: Call)
    ensures SameIds(w.episodes, Made(w, c).w.episodes)
  {
    if c.op.OpStartEpisode? {
      hide StartEpisode;
      StartAllOrNothing(w, c.minted, c.op.owner, c.op.ownerGen);
    } else if c.op.OpCommitMigration? {
      hide CommitMigration;
      MigrateAllOrNothing(w, c.op.expecting, c.op.worker, c.op.boot);
    } else {
      hide Apply;
      OthersKeepCast(w, c);
    }
  }

  lemma {:induction false} RunKeepsIds(w: Workload, calls: seq<Call>)
    ensures SameIds(w.episodes, Run(w, calls).episodes)
    decreases |calls|
  {
    hide Made;
    if calls != [] {
      RunKeepsIds(w, calls[..|calls| - 1]);
      StepKeepsIds(Run(w, calls[..|calls| - 1]), calls[|calls| - 1]);
    }
  }

  /** Exactly who is listened to: the last episode, unless an earlier one has its id. */
  lemma WhoMayReportIff(w: Workload, id: u64, gen: u64)
    requires Inv(w)
    ensures var n := |w.episodes| - 1;
            MayReport(w, id, gen) <==>
              && n >= 0 && w.episodes[n].id == id && gen == 1 && (forall i | 0 <= i < n :: w.episodes[i].id != id)
              && !w.cancel.finished && !IsCancelling(w.state) && !IsTerminal(w.state)
  {
    hide LogOk, GenerationCounts, Phase, IsTerminal, IsCancelling;
    var n := |w.episodes| - 1;
    if n >= 0 && w.episodes[n].id == id && (forall i | 0 <= i < n :: w.episodes[i].id != id) {
      assert FindEpisode(w.episodes, id) == n;
    }
  }

  lemma RefusedUnlessMayReport(w: Workload, episode: u64, episodeGen: u64, delta: u64, durable: bool)
    requires !MayReport(w, episode, episodeGen)
    ensures var s := ReportProgress(w, episode, episodeGen, delta, durable); s.w == w && !s.out.ALLOW?
  {
    hide IsTerminal, IsCancelling;
  }

  /**
   * Lost authority never returns: once an episode is not the last one, no report in its name has any
   * effect, at any later point of any run, whatever generation it carries.
   */
  lemma LostAuthorityNeverReturns(w: Workload, i: nat, calls: seq<Call>, report: Call)
    requires Inv(w) && i < |w.episodes| - 1
    requires report.op.OpProgress? && report.op.episode == w.episodes[i].id
    ensures var s := Made(Run(w, calls), report); s.w == Run(w, calls) && !s.out.ALLOW?
  {
    hide Inv, MayReport, ReportProgress;
    var u := Run(w, calls);
    RunKeepsInv(w, calls);
    RunKeepsIds(w, calls);
    WhoMayReportIff(u, report.op.episode, report.op.episodeGen);
    RefusedUnlessMayReport(u, report.op.episode, report.op.episodeGen, report.op.delta, report.op.durable);
  }

  // ---- Distinct ids --------------------------------------------------------

  /** How many ids the engine has used up. */
  function IdsMinted(e: EngineState, calls: seq<EngineCall>): nat
    decreases |calls|
  {
    if calls == [] then 0
    else
      var c := calls[|calls| - 1];
      IdsMinted(e, calls[..|calls| - 1])
      + if c.On? && c.op.OpStartEpisode? && c.id in EngineRun(e, calls[..|calls| - 1]).workloads then 1 else 0
  }

  /** Ids come from two ranges that have not met, and no two are equal. */
  predicate IdsApart(es: seq<Episode>, counter: nat, migrationCounter: nat) {
    && FIRST_MIGRATION_ID <= migrationCounter <= FIRST_MIGRATION_ID + |es|
    && counter <= FIRST_MIGRATION_ID
    && (forall i | 0 <= i < |es| :: FIRST_EPISODE_ID <= es[i].id < counter || FIRST_MIGRATION_ID <= es[i].id < migrationCounter)
    && (forall i, j | 0 <= i < j < |es| :: es[i].id != es[j].id)
  }

  predicate Apart(w: Workload, counter: nat) {
    IdsApart(w.episodes, counter, w.migrations.counter)
  }

  lemma StartKeepsApart(w: Workload, counter: u64, owner: u64, ownerGen: u64)
    requires Apart(w, counter) && FIRST_EPISODE_ID <= counter < FIRST_MIGRATION_ID
    ensures Apart(Apply(w, OpStartEpisode(owner, ownerGen), counter).w, counter + 1)
  {
    hide StartEpisode;
    StartAllOrNothing(w, counter, owner, ownerGen);
  }

  lemma MigrationKeepsApart(w: Workload, counter: u64, minted: u64, expecting: u64, worker: u64, boot: u64)
    requires Apart(w, counter) && |w.episodes| < TWO63
    ensures Apart(Apply(w, OpCommitMigration(expecting, worker, boot), minted).w, counter)
  {
    hide CommitMigration;
    MigrateAllOrNothing(w, expecting, worker, boot);
  }

  lemma OthersKeepApart(w: Workload, counter: u64, c: Call)
    requires Apart(w, counter) && !c.op.OpStartEpisode? && !c.op.OpCommitMigration?
    ensures Apart(Made(w, c).w, counter)
  {
    hide Apply;
    OthersKeepCast(w, c);
  }

  lemma StepKeepsApart(w: Workload, c: Call)
    requires Apart(w, c.minted) && FIRST_EPISODE_ID <= c.minted && |w.episodes| < TWO63
    requires c.op.OpStartEpisode? ==> c.minted < FIRST_MIGRATION_ID
    ensures Apart(Made(w, c).w, if c.op.OpStartEpisode? then c.minted + 1 else c.minted)
  {
    hide Apply, Apart;
    match c.op {
      case OpStartEpisode(owner, ownerGen) => StartKeepsApart(w, c.minted, owner, ownerGen);
      case OpCommitMigration(expecting, worker, boot) => MigrationKeepsApart(w, c.minted, c.minted, expecting, worker, boot);
      case _ => OthersKeepApart(w, c.minted, c);
    }
  }

  lemma ApartLater(w: Workload, counter: nat, later: nat)
    requires Apart(w, counter) && counter <= later <= FIRST_MIGRATION_ID
    ensures Apart(w, later)
  {
  }

  predicate AllApart(e: EngineState) {
    forall id | id in e.workloads :: Apart(e.workloads[id], e.counter)
  }

  predicate FewEpisodes(e: EngineState, n: nat) {
    forall id | id in e.workloads :: |e.workloads[id].episodes| <= n
  }

  lemma CallKeepsApart(e: EngineState, c: EngineCall, n: nat)
    requires AllApart(e) && AllSound(e) && FewEpisodes(e, n) && n < TWO63
    requires FIRST_EPISODE_ID <= e.counter <= FIRST_MIGRATION_ID && (c.On? && c.op.OpStartEpisode? ==> e.counter < FIRST_MIGRATION_ID)
    ensures AllApart(Perform(e, c).e) && FewEpisodes(Perform(e, c).e, n + 1)
  {
    hide Apply, Apart, Inv, Kept;
    var f := Perform(e, c).e;
    forall id | id in f.workloads ensures Apart(f.workloads[id], f.counter) && |f.workloads[id].episodes| <= n + 1 {
      if c.On? && c.id == id {
        var call := Call(c.op, e.counter);
        StepKeepsApart(e.workloads[id], call);
        StepAppendsAtMostOne(e.workloads[id], call);
      } else if id in e.workloads {
        ApartLater(e.workloads[id], e.counter, f.counter);
      } else {
        CreatedApart(c, e.counter);
      }
    }
  }

  lemma CreatedApart(c: EngineCall, counter: u64)
    requires c.Register? && counter <= FIRST_MIGRATION_ID
    ensures var w := Created(c.id, c.name, c.intent, c.policy); Apart(w, counter) && w.episodes == []
  {
  }

  lemma UnknownChangesNothing(e: EngineState, c: EngineCall)
    requires c.On? && c.id !in e.workloads
    ensures Perform(e, c).e == e
  {
    hide Apply, Kept;
  }

  lemma CounterMoves(e: EngineState, c: EngineCall)
    ensures Perform(e, c).e.counter ==
            if c.On? && c.op.OpStartEpisode? && c.id in e.workloads then Wrap(e.counter + 1) else e.counter
  {
    hide Apply, Kept, Created;
  }

  lemma {:induction false} EngineKeepsApart(calls: seq<EngineCall>, withStore: bool)
    requires |calls| < TWO63 && IdsMinted(Started(withStore), calls) <= 1000
    ensures var e := EngineRun(Started(withStore), calls);
            && AllApart(e) && FewEpisodes(e, |calls|)
            && e.counter == FIRST_EPISODE_ID + IdsMinted(Started(withStore), calls)
    decreases |calls|
  {
    hide Perform, AllApart, FewEpisodes, AllSound;
    if calls == [] {
      NothingYet(withStore);
    } else {
      var init, c := calls[..|calls| - 1], calls[|calls| - 1];
      var e := EngineRun(Started(withStore), init);
      EngineKeepsApart(init, withStore);
      EngineKeepsInv(init, withStore);
      CounterMoves(e, c);
      if c.On? && c.id !in e.workloads {
        UnknownChangesNothing(e, c);
        FewerEpisodes(e, |init|);
      } else {
        CallKeepsApart(e, c, |init|);
      }
    }
  }

  lemma NothingYet(withStore: bool)
    ensures AllApart(Started(withStore)) && FewEpisodes(Started(withStore), 0)
  {
  }

  lemma FewerEpisodes(e: EngineState, n: nat)
    requires FewEpisodes(e, n)
    ensures FewEpisodes(e, n + 1)
  {
  }

  /**
   * While the engine has used up at most 1000 ids, the ids within each workload are pairwise distinct, so
   * first-match lookup finds the very episode that was named.
   */
  lemma NamedEpisodeIsFound(calls: seq<EngineCall>, withStore: bool, id: u64, i: nat)
    requires |calls| < TWO63 && IdsMinted(Started(withStore), calls) <= 1000
    requires id in EngineRun(Started(withStore), calls).workloads
    requires i < |EngineRun(Started(withStore), calls).workloads[id].episodes|
    ensures var es := EngineRun(Started(withStore), calls).workloads[id].episodes; FindEpisode(es, es[i].id) == i
  {
    hide EngineRun, IdsMinted;
    EngineKeepsApart(calls, withStore);
    var e := EngineRun(Started(withStore), calls);
    FoundWhenApart(e.workloads[id], e.counter, i);
  }

  lemma FoundWhenApart(w: Workload, counter: nat, i: nat)
    requires Apart(w, counter) && i < |w.episodes|
    ensures FindEpisode(w.episodes, w.episodes[i].id) == i
  {
    var k := FindEpisode(w.episodes, w.episodes[i].id);
    assert k <= i;
  }
}

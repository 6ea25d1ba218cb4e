/** Going on from a loaded record: what carries over, and what the unsaved id counter costs. */
module Reload {
  import opened Basics
  import opened Model
  import opened Lifecycle
  import opened Runs
  import opened Guarantees
  import opened Identities
  import opened Codec
  import opened Engine
  import opened Simulation

  /** The invariant does not depend on what a record leaves out. */
  lemma PersistedKeepsInv(w: Workload)
    requires Inv(w)
    ensures Inv(Persisted(w))
  {
  }

  lemma {:induction false} SavedIsSound(calls: seq<EngineCall>, id: u64)
    ensures LastSaved(Started(true), calls, id).Some? ==> Inv(LastSaved(Started(true), calls, id).value)
    decreases |calls|
  {
    hide Inv, Perform;
    if calls != [] {
      SavedIsSound(calls[..|calls| - 1], id);
      EngineKeepsInv(calls, true);
      assert AllSound(EngineRun(Started(true), calls));
    }
  }

  /**
   * Whatever a store gives back satisfies the whole invariant, so every theorem about runs holds of a run
   * continued from a loaded record.
   */
  lemma ReloadedRunsAreSound(calls: seq<EngineCall>, id: u64, more: seq<Call>)
    requires LastSaved(Started(true), calls, id).Some?
    ensures Inv(Run(Persisted(LastSaved(Started(true), calls, id).value), more))
  {
    hide Inv, LastSaved, Run;
    SavedIsSound(calls, id);
    PersistedKeepsInv(LastSaved(Started(true), calls, id).value);
    RunKeepsInv(Persisted(LastSaved(Started(true), calls, id).value), more);
  }

  lemma PendingIsOpen(w: Workload)
    requires Inv(w) && w.state.MIGRATION_PENDING?
    ensures !w.cancel.finished
  {
    hide LogOk, Handoff;
  }

  /**
   * The counter of migration ids starts over after a reload: the first migration then mints id 2000 again,
   * and the new authoritative episode may report exactly when no earlier episode has that id.
   */
  lemma MigrationAfterReloadIff(w: Workload, worker: u64, boot: u64)
    requires Inv(w) && w.state.MIGRATION_PENDING?
    ensures var s, n := CommitMigration(Persisted(w), w.generation, worker, boot), |w.episodes|;
            && s.out.ALLOW? && |s.w.episodes| == n + 1 && s.w.episodes[n].id == FIRST_MIGRATION_ID && s.w.episodes[n].authoritative
            && (MayReport(s.w, FIRST_MIGRATION_ID, 1) <==> forall i | 0 <= i < n :: w.episodes[i].id != FIRST_MIGRATION_ID)
  {
    hide Inv, MayReport, CommitMigration;
    PersistedKeepsInv(w);
    PendingIsOpen(w);
    MigrateAllOrNothing(Persisted(w), w.generation, worker, boot);
    var c := Call(OpCommitMigration(w.generation, worker, boot), 0);
    StepKeepsInv(Persisted(w), c);
    MigrationIs(Persisted(w), c);
    var v := CommitMigration(Persisted(w), w.generation, worker, boot).w;
    WhoMayReportIff(v, FIRST_MIGRATION_ID, 1);
    assert forall i | 0 <= i < |w.episodes| :: v.episodes[i].id == w.episodes[i].id;
  }

  lemma MigrationIs(w: Workload, c: Call)
    requires c.op.OpCommitMigration?
    ensures Made(w, c) == CommitMigration(w, c.op.expecting, c.op.worker, c.op.boot)
  {
    hide CommitMigration;
  }
}

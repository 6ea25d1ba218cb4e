/** The mutable workload aggregate; every method is proved to do what Model says. */
module Aggregate {
  import opened Basics
  import opened Vocabulary
  import opened ProgressModel
  import opened Dependencies
  import opened Resources
  import opened Model

  class DurableWorkload {
    const contract: ResourceContract
    const deps: DependencySet
    const progress: ProgressCounters
    var id: u64
    var generation: u64
    var revision: u64
    var state: WorkloadState
    var name: Bytes
    var intent: Bytes
    var policy: Policy
    var priority: Priority
    var owner: u64
    var ownerGeneration: u64
    var epoch: u64
    var restartCount: u32
    var restartGen: u64
    var migrationId: u64
    var migrationGen: u64
    var completionGen: u64
    var cancellationRequested: bool
    var cancelledFinal: bool
    var cancellationWasRejected: bool
    var lastRestartReason: Bytes
    var lastSourceEpisode: u64
    var migrationCounter: u64
    var episodes: seq<Episode>
    var history: seq<Record>

    ghost function Repr(): set<object> {
      {this, contract, deps, progress}
    }

    function View(): Workload
      reads this, contract, deps, progress
    {
      Workload(Identity(id, name, intent, priority, owner, ownerGeneration, epoch),
               generation, revision, state, policy, contract.View(), deps.View(), progress.value,
               Restarts(restartCount, restartGen, lastRestartReason, lastSourceEpisode),
               Migrations(migrationId, migrationGen, migrationCounter), completionGen,
               Cancellation(cancellationRequested, cancelledFinal, cancellationWasRejected), episodes, history)
    }

    constructor Create(id: u64, name: Bytes, intent: Bytes, policy: Policy)
      ensures View() == Created(id, name, intent, policy)
      ensures fresh(Repr())
    {
      contract := new ResourceContract();
      deps := new DependencySet();
      progress := new ProgressCounters(NO_PROGRESS);
      this.id, this.name, this.intent := id, name, intent;
      generation, revision, epoch := 1, 1, 1;
      state := CREATED;
      this.policy := policy;
      priority := NO_PRIORITY;
      owner, ownerGeneration, restartCount, restartGen := 0, 0, 0, 0;
      migrationId, migrationGen, completionGen := 0, 0, 0;
      cancellationRequested, cancelledFinal, cancellationWasRejected := false, false, false;
      lastRestartReason, lastSourceEpisode, migrationCounter := [], 0, FIRST_MIGRATION_ID;
      episodes, history := [], [];
    }

    constructor FromValue(w: Workload)
      ensures View() == w
      ensures fresh(Repr())
    {
      contract := new ResourceContract.FromValue(w.contract);
      deps := new DependencySet.FromValue(w.deps);
      progress := new ProgressCounters(w.progress);
      id, name, intent := w.ident.id, w.ident.name, w.ident.intent;
      generation, revision, epoch := w.generation, w.revision, w.ident.epoch;
      state, policy, priority := w.state, w.policy, w.ident.priority;
      owner, ownerGeneration := w.ident.owner, w.ident.ownerGeneration;
      restartCount, restartGen := w.restarts.count, w.restarts.gen;
      migrationId, migrationGen, completionGen := w.migrations.id, w.migrations.gen, w.completionGen;
      cancellationRequested, cancelledFinal := w.cancel.requested, w.cancel.finished;
      cancellationWasRejected := w.cancel.wasRejected;
      lastRestartReason, lastSourceEpisode := w.restarts.lastReason, w.restarts.lastSource;
      migrationCounter := w.migrations.counter;
      episodes, history := w.episodes, w.history;
    }

    method Log(from: WorkloadState, to: WorkloadState, reason: Bytes, outcome: Outcome)
      modifies this
      ensures View() == Logged(old(View()), from, to, reason, outcome)
    {
      history := history + [Record(from, to, generation, 0, reason, outcome)];
      revision := Next(revision);
    }

    method GuardedTransition(to: WorkloadState, expecting: u64, reason: Bytes) returns (out: Outcome)
      modifies this
      ensures Step(View(), out) == Guarded(old(View()), to, expecting, reason)
    {
      if expecting != generation {
        Log(state, to, reason, REJECT_STALE_WORKLOAD_GENERATION);
        return REJECT_STALE_WORKLOAD_GENERATION;
      }
      if state == to {
        return ALLOW;
      }
      if IsTerminal(state) {
        Log(state, to, reason, REJECT_TERMINAL);
        return REJECT_TERMINAL;
      }
      if !CanTransition(state, to) {
        Log(state, to, reason, REJECT_INVALID_TRANSITION);
        return REJECT_INVALID_TRANSITION;
      }
      if to == COMPLETED && !policy.completion.allowZeroWorkCompletion {
        if state == CREATED || state == VALIDATING || state == BLOCKED
           || state == WAITING_FOR_DEPENDENCIES || state == WAITING_FOR_RESOURCES {
          Log(state, to, reason, REJECT_COMPLETION_POLICY);
          return REJECT_COMPLETION_POLICY;
        }
      }
      var from := state;
      state := to;
      Log(from, to, reason, ALLOW);
      return ALLOW;
    }

    method SetPolicy(p: Policy)
      modifies this
      ensures View() == old(View()).(policy := p)
    {
      policy := p;
    }

    method AddDependency(def: DependencyDef) returns (out: Outcome)
      modifies deps
      ensures View() == old(View()).(deps := Defined(old(View()).deps, def)) && out == ALLOW
    {
      out := deps.Define(def);
    }

    method SetDependencyStatus(index: nat, status: DependencyStatus, observed: u64) returns (out: Outcome)
      modifies deps
      ensures var d, r := old(View()).deps, Dependencies.Report.Report(index, status, observed);
              View() == old(View()).(deps := d.(states := Reported(d.states, r))) && out == ReportOutcome(d.states, r)
    {
      out := deps.SetStatus(index, status, observed);
    }

    method AddRequirement(req: Requirement) returns (out: Outcome)
      modifies contract
      ensures View() == old(View()).(contract := WithRequirement(old(View()).contract, req))
      ensures out == AddOutcome(old(View()).contract, req)
    {
      out := contract.Add(req);
    }

    method ApplyGrant(grant: Grant) returns (out: Outcome)
      modifies contract
      ensures View() == old(View()).(contract := WithGrant(old(View()).contract, grant)) && out == ALLOW
    {
      out := contract.ApplyGrant(grant);
    }

    method SettleInto(expecting: u64) returns (out: Outcome)
      requires Paired(View().deps)
      modifies this
      ensures Step(View(), out) == Settle(old(View()), expecting)
    {
      if expecting != generation {
        return REJECT_STALE_WORKLOAD_GENERATION;
      }
      var target;
      var depsReady := deps.Ready();
      var satisfied := contract.IsSatisfied();
      if !depsReady {
        if IsTerminal(state) || IsCancelling(state) {
          return REJECT_TERMINAL;
        }
        target := WAITING_FOR_DEPENDENCIES;
      } else if !satisfied {
        if IsTerminal(state) || IsCancelling(state) {
          return REJECT_TERMINAL;
        }
        target := WAITING_FOR_RESOURCES;
      } else {
        target := READY;
      }
      if state == target {
        return ALLOW;
      }
      out := GuardedTransition(target, expecting, Ascii("settle"));
    }

    method Explain() returns (out: Outcome)
      requires Paired(View().deps)
      ensures out == ExplainBlocked(View())
    {
      var depsReady := deps.Ready();
      var satisfied := contract.IsSatisfied();
      if !depsReady {
        return BLOCKED_DEPENDENCY;
      } else if !satisfied {
        return BLOCKED_RESOURCE_CONTRACT;
      }
      return ALLOW;
    }

    /** Position of the first episode with this id. */
    method Find(episode: u64) returns (i: nat)
      ensures i == FindEpisode(episodes, episode)
    {
      i := 0;
      while i < |episodes| && episodes[i].id != episode
        invariant i <= |episodes|
        invariant forall j | 0 <= j < i :: episodes[j].id != episode
      {
        i := i + 1;
      }
    }

    method Current() returns (c: Option<nat>)
      ensures c == CurrentEpisode(episodes)
    {
      var i: nat := 0;
      while i < |episodes|
        invariant i <= |episodes|
        invariant forall j | 0 <= j < i :: !episodes[j].authoritative
      {
        if episodes[i].authoritative {
          return Some(i);
        }
        i := i + 1;
      }
      if episodes == [] {
        return None;
      }
      return Some(|episodes| - 1);
    }

    method DropAuthority()
      modifies this
      ensures View() == old(View()).(episodes := Deauthorized(old(episodes)))
    {
      ghost var es := episodes;
      var i := 0;
      while i < |episodes|
        invariant 0 <= i <= |episodes| == |es|
        invariant forall j | 0 <= j < i :: episodes[j] == es[j].(authoritative := false)
        invariant forall j | i <= j < |es| :: episodes[j] == es[j]
        invariant View() == old(View()).(episodes := episodes)
      {
        episodes := episodes[i := episodes[i].(authoritative := false)];
        i := i + 1;
      }
      assert episodes == Deauthorized(es);
    }

    method HandOver(target: Episode, advanceGeneration: bool)
      modifies this
      ensures View() == HandedOver(old(View()), target, advanceGeneration)
    {
      DropAuthority();
      episodes := episodes + [target];
      if advanceGeneration {
        generation := Next(generation);
      }
    }

    method Start(episode: u64, newOwner: u64, ownerGen: u64, advanceGeneration: bool) returns (out: Outcome)
      modifies this
      ensures Step(View(), out) == StartEpisode(old(View()), episode, newOwner, ownerGen, advanceGeneration)
    {
      if cancelledFinal || IsCancelling(state) {
        return REJECT_CANCELLED;
      }
      if IsTerminal(state) {
        return REJECT_TERMINAL;
      }
      if !ResumeEligible(state) {
        return REJECT_EPISODE_INELIGIBLE;
      }
      if state != READY {
        var pre := GuardedTransition(READY, generation, Ascii("resume eligible"));
        if pre != ALLOW {
          return pre;
        }
      }
      var t := GuardedTransition(STARTING, generation, Ascii("start episode"));
      if t != ALLOW {
        return t;
      }
      var target := AdmittedEpisode(View(), episode, newOwner, ownerGen);
      HandOver(target, advanceGeneration);
      return ALLOW;
    }

    method Admit(episode: u64, worker: u64, boot: u64) returns (out: Outcome)
      modifies this
      ensures Step(View(), out) == AdmitDispatch(old(View()), episode, worker, boot)
    {
      var i := Find(episode);
      if i == |episodes| {
        return REJECT_EPISODE_INELIGIBLE;
      }
      if episodes[i].state != EP_ADMITTED && episodes[i].state != EP_PREEMPTED {
        return REJECT_EPISODE_INELIGIBLE;
      }
      episodes := episodes[i := episodes[i].(worker := worker, boot := boot, state := EP_RUNNING)];
      if state == STARTING {
        out := GuardedTransition(RUNNING, generation, Ascii("dispatch"));
        return;
      }
      return ALLOW;
    }

    method Report(episode: u64, episodeGen: u64, delta: u64, durable: bool) returns (out: Outcome)
      modifies this, progress
      ensures Step(View(), out) == ReportProgress(old(View()), episode, episodeGen, delta, durable)
    {
      var i := Find(episode);
      if i == |episodes| {
        return REJECT_EPISODE_INELIGIBLE;
      }
      if episodeGen != episodes[i].generation {
        return REJECT_STALE_EPISODE;
      }
      if !episodes[i].authoritative {
        return REJECT_EPISODE_INELIGIBLE;
      }
      if cancelledFinal || IsCancelling(state) {
        return REJECT_CANCELLED;
      }
      if IsTerminal(state) {
        return REJECT_TERMINAL;
      }
      if progress.value.totalKind == TOTAL_KNOWN && Wrap(progress.value.completed + delta) > progress.value.total {
        return REJECT_PROGRESS_DOUBLE_COUNT;
      }
      var ok := progress.Advance(delta, durable);
      if !ok {
        return REJECT_UNKNOWN;
      }
      var own := episodes[i].progress;
      own := own.(completed := Wrap(own.completed + delta));
      if durable {
        own := own.(checkpointed := own.completed);
      }
      assert own == OwnProgress(episodes[i].progress, delta, durable);
      episodes := episodes[i := episodes[i].(progress := own)];
      return ALLOW;
    }

    method Criterion(cur: Option<nat>) returns (criterion: bool)
      requires cur == CurrentEpisode(episodes)
      ensures criterion == CompletionEvidence(View())
    {
      criterion := false;
      match policy.completion.kind {
        case SINGLE_RESULT =>
          criterion := cur.Some? && episodes[cur.value].completed;
        case ALL_PHASES =>
          criterion := cur.Some? && episodes[cur.value].completed && Complete(progress.value);
        case REQUIRED_UNITS =>
          criterion := progress.value.totalKind == TOTAL_KNOWN && progress.value.completed >= progress.value.total;
        case EXPLICIT_FINALIZE =>
      }
    }

    method CompleteCurrent(cur: Option<nat>)
      requires cur == CurrentEpisode(episodes)
      modifies this
      ensures View() == old(View()).(episodes := WithCurrentCompleted(old(episodes)))
    {
      if cur.Some? {
        episodes := episodes[cur.value := episodes[cur.value].(completed := true)];
      }
    }

    method MarkCompletion(cur: Option<nat>)
      requires cur == CurrentEpisode(episodes)
      modifies this
      ensures View() == CompletionMarked(old(View()))
    {
      CompleteCurrent(cur);
      cancellationRequested := false;
      cancellationWasRejected := true;
      completionGen := Next(completionGen);
    }

    method Commit(expecting: u64) returns (out: Outcome)
      modifies this
      ensures Step(View(), out) == CommitCompletion(old(View()), expecting)
    {
      if expecting != generation {
        return REJECT_STALE_WORKLOAD_GENERATION;
      }
      if IsTerminal(state) {
        return REJECT_TERMINAL;
      }
      if cancellationRequested && policy.cancelRace == CANCEL_FIRST {
        return REJECT_CANCELLED;
      }
      var cur := Current();
      var criterion := Criterion(cur);
      if !criterion {
        return REJECT_COMPLETION_POLICY;
      }
      MarkCompletion(cur);
      out := GuardedTransition(COMPLETING, expecting, Ascii("completion criteria met"));
      if out != ALLOW {
        return;
      }
      out := GuardedTransition(COMPLETED, generation, Ascii("workload completed"));
    }

    method FinalizeExplicitly(expecting: u64) returns (out: Outcome)
      modifies this
      ensures Step(View(), out) == Finalize(old(View()), expecting)
    {
      if expecting != generation {
        return REJECT_STALE_WORKLOAD_GENERATION;
      }
      if policy.completion.kind != EXPLICIT_FINALIZE {
        return REJECT_COMPLETION_POLICY;
      }
      if IsTerminal(state) {
        return REJECT_TERMINAL;
      }
      completionGen := Next(completionGen);
      out := GuardedTransition(COMPLETING, expecting, Ascii("explicit finalize"));
      if out != ALLOW {
        return;
      }
      out := GuardedTransition(COMPLETED, generation, Ascii("finalized"));
    }

    method RequestCancel(expecting: u64) returns (out: Outcome)
      modifies this
      ensures Step(View(), out) == RequestCancellation(old(View()), expecting)
    {
      if expecting != generation {
        return REJECT_STALE_WORKLOAD_GENERATION;
      }
      if IsTerminal(state) {
        return REJECT_TERMINAL;
      }
      cancellationRequested := true;
      if state == CANCELLATION_REQUESTED || state == CANCELLING {
        return ALLOW;
      }
      out := GuardedTransition(CANCELLATION_REQUESTED, expecting, Ascii("cancellation requested"));
    }

    method FinishCancel(expecting: u64) returns (out: Outcome)
      modifies this
      ensures Step(View(), out) == CompleteCancellation(old(View()), expecting)
    {
      if expecting != generation {
        return REJECT_STALE_WORKLOAD_GENERATION;
      }
      if state == CANCELLED {
        cancelledFinal := true;
        return ALLOW;
      }
      if IsTerminal(state) {
        return REJECT_TERMINAL;
      }
      cancelledFinal := true;
      cancellationRequested := true;
      out := GuardedTransition(CANCELLATION_REQUESTED, expecting, Ascii("cancelling"));
      if out != ALLOW {
        return;
      }
      out := GuardedTransition(CANCELLING, generation, Ascii("cancelling"));
      if out != ALLOW {
        return;
      }
      out := GuardedTransition(CANCELLED, generation, Ascii("cancelled"));
    }

    method OnWorkerLost(worker: u64, boot: u64, expecting: u64) returns (out: Outcome)
      modifies this
      ensures Step(View(), out) == WorkerLost(old(View()), worker, boot, expecting)
    {
      if expecting != generation {
        return REJECT_STALE_WORKLOAD_GENERATION;
      }
      var cur := Current();
      if cur.None? {
        return REJECT_EPISODE_INELIGIBLE;
      }
      var i := cur.value;
      if episodes[i].worker != worker || episodes[i].boot != boot {
        return REJECT_STALE_BOOT;
      }
      episodes := episodes[i := episodes[i].(workerLost := true, state := EP_LOST)];
      if state == RUNNING || state == DEGRADED {
        out := GuardedTransition(RECOVERING, expecting, Ascii("worker lost"));
        return;
      }
      return ALLOW;
    }

    method MarkEpisodeCompleted(episode: u64) returns (out: Outcome)
      modifies this
      ensures Step(View(), out) == MarkCompleted(old(View()), episode)
    {
      var i := Find(episode);
      if i == |episodes| {
        return REJECT_EPISODE_INELIGIBLE;
      }
      episodes := episodes[i := episodes[i].(completed := true, state := EP_COMPLETED)];
      return ALLOW;
    }

    method SpendSlot(reason: Bytes)
      requires restartCount < TWO32 - 1
      modifies this
      ensures View() == SlotSpent(old(View()), reason)
    {
      RecordSource();
      restartCount := restartCount + 1;
      restartGen := Next(restartGen);
      lastRestartReason := reason;
    }

    method RecordSource()
      modifies this
      ensures View() == old(View()).(restarts := old(View()).restarts.(lastSource := LastSource(old(View()))))
    {
      var cur := Current();
      if cur.Some? {
        lastSourceEpisode := episodes[cur.value].id;
      }
    }

    method Restart(expecting: u64, reason: Bytes) returns (out: Outcome)
      modifies this
      ensures Step(View(), out) == PlanRestart(old(View()), expecting, reason)
    {
      if expecting != generation {
        return REJECT_STALE_WORKLOAD_GENERATION;
      }
      if IsTerminal(state) {
        return REJECT_TERMINAL;
      }
      var classAllowed := RestartClassAllowed(policy.restart.kind, reason);
      if !classAllowed || !RestartAllowed(restartCount, policy.restart.maxRestarts) {
        return REJECT_RESTART_LIMIT;
      }
      SpendSlot(reason);
      if state == RESTART_PENDING {
        return ALLOW;
      }
      out := GuardedTransition(RESTART_PENDING, expecting, Ascii("restart pending"));
    }

    method Suspend(expecting: u64) returns (out: Outcome)
      modifies this
      ensures Step(View(), out) == RequestSuspend(old(View()), expecting)
    {
      if expecting != generation {
        return REJECT_STALE_WORKLOAD_GENERATION;
      }
      if !policy.suspension.allowed {
        return REJECT_DEGRADED_POLICY;
      }
      if !IsActivelyRunning(state) {
        return REJECT_NOT_SUSPENDED;
      }
      out := GuardedTransition(SUSPEND_REQUESTED, expecting, Ascii("suspend requested"));
    }

    method Quiesce()
      modifies this
      ensures View() == Quiesced(old(View()))
    {
      var cur := Current();
      if cur.Some? {
        episodes := episodes[cur.value := episodes[cur.value].(state := EP_SUSPENDED, workerLost := false)];
      }
    }

    method FinishSuspend(expecting: u64) returns (out: Outcome)
      modifies this
      ensures Step(View(), out) == CompleteSuspend(old(View()), expecting)
    {
      if expecting != generation {
        return REJECT_STALE_WORKLOAD_GENERATION;
      }
      if state == SUSPENDED {
        return ALLOW;
      }
      if state != SUSPEND_REQUESTED && state != SUSPENDING {
        return REJECT_NOT_RESUMABLE;
      }
      Quiesce();
      if state == SUSPEND_REQUESTED {
        out := GuardedTransition(SUSPENDING, expecting, Ascii("suspending"));
        if out != ALLOW {
          return;
        }
        out := GuardedTransition(SUSPENDED, generation, Ascii("suspended"));
        return;
      }
      out := GuardedTransition(SUSPENDED, expecting, Ascii("suspended"));
    }

    method Resume(expecting: u64) returns (out: Outcome)
      modifies this
      ensures Step(View(), out) == RequestResume(old(View()), expecting)
    {
      if expecting != generation {
        return REJECT_STALE_WORKLOAD_GENERATION;
      }
      if state != SUSPENDED && state != PREEMPTED {
        return REJECT_NOT_SUSPENDED;
      }
      out := GuardedTransition(READY, expecting, Ascii("resume eligible"));
    }

    method CountMigration()
      modifies this
      ensures View() == MigrationCounted(old(View()))
    {
      migrationId := Wrap(migrationId + 1);
      migrationGen := Next(migrationGen);
    }

    method Migrate(expecting: u64) returns (out: Outcome)
      modifies this
      ensures Step(View(), out) == RequestMigration(old(View()), expecting)
    {
      if expecting != generation {
        return REJECT_STALE_WORKLOAD_GENERATION;
      }
      if policy.migration.eligibility == MIG_NONE {
        return REJECT_MIGRATION_INELIGIBLE;
      }
      if !IsActivelyRunning(state) && state != MIGRATION_PENDING {
        return REJECT_MIGRATION_INELIGIBLE;
      }
      CountMigration();
      if state == MIGRATION_PENDING {
        return ALLOW;
      }
      out := GuardedTransition(MIGRATION_PENDING, expecting, Ascii("migration requested"));
    }

    method AdoptTarget(targetWorker: u64, targetBoot: u64)
      modifies this
      ensures View() == Adopted(old(View()), targetWorker, targetBoot)
    {
      var target := MigratedEpisode(View(), targetWorker, targetBoot);
      migrationCounter := Wrap(migrationCounter + 1);
      HandOver(target, true);
    }

    method FinishMigration(expecting: u64, targetWorker: u64, targetBoot: u64) returns (out: Outcome)
      modifies this
      ensures Step(View(), out) == CommitMigration(old(View()), expecting, targetWorker, targetBoot)
    {
      if expecting != generation {
        return REJECT_STALE_WORKLOAD_GENERATION;
      }
      if state != MIGRATION_PENDING && state != MIGRATING {
        return REJECT_MIGRATION_INELIGIBLE;
      }
      if state == MIGRATION_PENDING {
        out := GuardedTransition(MIGRATING, expecting, Ascii("migrating"));
        if out != ALLOW {
          return;
        }
      }
      AdoptTarget(targetWorker, targetBoot);
      out := GuardedTransition(RUNNING, generation, Ascii("migration committed"));
    }
  }
}

/** The engine object: mutable workloads behind a map, saved on every allowed call (src/coordinator.cpp). */
module Coordinator {
  import opened Basics
  import opened Vocabulary
  import opened Dependencies
  import opened Resources
  import opened Model
  import opened Runs
  import opened Aggregate
  import opened Records
  import opened Store
  import opened Engine
  import opened Simulation

  // ---- Which function each call runs ----------------------------------------

  lemma ValidateIs(w: Workload, minted: u64)
    ensures Apply(w, OpValidate, minted) == Guarded(w, VALIDATING, w.generation, Ascii("validate"))
  {
  }

  lemma AddDependencyIs(w: Workload, def: DependencyDef, minted: u64)
    ensures Apply(w, OpAddDependency(def), minted) == Step(w.(deps := Defined(w.deps, def)), ALLOW)
  {
  }

  lemma SetDependencyStatusIs(w: Workload, index: nat, status: DependencyStatus, observed: u64, minted: u64)
    ensures Apply(w, OpSetDependencyStatus(index, status, observed), minted) ==
            Step(w.(deps := w.deps.(states := Reported(w.deps.states, Report(index, status, observed)))),
                 ReportOutcome(w.deps.states, Report(index, status, observed)))
  {
  }

  lemma AddRequirementIs(w: Workload, req: Requirement, minted: u64)
    ensures Apply(w, OpAddRequirement(req), minted) ==
            Step(w.(contract := WithRequirement(w.contract, req)), AddOutcome(w.contract, req))
  {
  }

  lemma ApplyGrantIs(w: Workload, grant: Grant, minted: u64)
    ensures Apply(w, OpApplyGrant(grant), minted) == Step(w.(contract := WithGrant(w.contract, grant)), ALLOW)
  {
  }

  lemma SettleIs(w: Workload, minted: u64)
    ensures Apply(w, OpSettle, minted) == Settle(w, w.generation)
  {
  }

  lemma StartEpisodeIs(w: Workload, owner: u64, ownerGen: u64, minted: u64)
    ensures Apply(w, OpStartEpisode(owner, ownerGen), minted) == StartEpisode(w, minted, owner, ownerGen, true)
  {
  }

  lemma AdmitDispatchIs(w: Workload, episode: u64, worker: u64, boot: u64, minted: u64)
    ensures Apply(w, OpAdmitDispatch(episode, worker, boot), minted) == AdmitDispatch(w, episode, worker, boot)
  {
  }

  lemma ProgressIs(w: Workload, episode: u64, episodeGen: u64, delta: u64, durable: bool, minted: u64)
    ensures Apply(w, OpProgress(episode, episodeGen, delta, durable), minted) ==
            ReportProgress(w, episode, episodeGen, delta, durable)
  {
  }

  lemma EpisodeCompletedIs(w: Workload, episode: u64, minted: u64)
    ensures Apply(w, OpEpisodeCompleted(episode), minted) == MarkCompleted(w, episode)
  {
  }

  lemma CommitCompletionIs(w: Workload, expecting: u64, minted: u64)
    ensures Apply(w, OpCommitCompletion(expecting), minted) == CommitCompletion(w, expecting)
  {
  }

  lemma WorkerLostIs(w: Workload, worker: u64, boot: u64, expecting: u64, minted: u64)
    ensures Apply(w, OpWorkerLost(worker, boot, expecting), minted) == WorkerLost(w, worker, boot, expecting)
  {
  }

  lemma PlanRestartIs(w: Workload, reason: Bytes, expecting: u64, minted: u64)
    ensures Apply(w, OpPlanRestart(reason, expecting), minted) == PlanRestart(w, expecting, reason)
  {
  }

  lemma RequestSuspendIs(w: Workload, expecting: u64, minted: u64)
    ensures Apply(w, OpRequestSuspend(expecting), minted) == RequestSuspend(w, expecting)
  {
  }

  lemma CompleteSuspendIs(w: Workload, expecting: u64, minted: u64)
    ensures Apply(w, OpCompleteSuspend(expecting), minted) == CompleteSuspend(w, expecting)
  {
  }

  lemma RequestResumeIs(w: Workload, expecting: u64, minted: u64)
    ensures Apply(w, OpRequestResume(expecting), minted) == RequestResume(w, expecting)
  {
  }

  lemma RequestMigrationIs(w: Workload, expecting: u64, minted: u64)
    ensures Apply(w, OpRequestMigration(expecting), minted) == RequestMigration(w, expecting)
  {
  }

  lemma CommitMigrationIs(w: Workload, expecting: u64, worker: u64, boot: u64, minted: u64)
    ensures Apply(w, OpCommitMigration(expecting, worker, boot), minted) == CommitMigration(w, expecting, worker, boot)
  {
  }

  lemma CancelIs(w: Workload, expecting: u64, minted: u64)
    ensures Apply(w, OpCancel(expecting), minted) == RequestCancellation(w, expecting)
  {
  }

  lemma CompleteCancellationIs(w: Workload, expecting: u64, minted: u64)
    ensures Apply(w, OpCompleteCancellation(expecting), minted) == CompleteCancellation(w, expecting)
  {
  }

  lemma SetPolicyIs(w: Workload, policy: Policy, minted: u64)
    ensures Apply(w, OpSetPolicy(policy), minted) == Step(w.(policy := policy), ALLOW)
  {
  }

  lemma UnknownWorkload(e: EngineState, id: u64, op: Op)
    requires id !in e.workloads
    ensures Perform(e, On(id, op)) == Reaction(e, EngineResult(REJECT_WORKLOAD_NOT_FOUND, None, 0))
  {
    hide Apply, Kept;
  }

  lemma KnownWorkload(e: EngineState, id: u64, op: Op)
    requires id in e.workloads
    ensures var s := Apply(e.workloads[id], op, e.counter);
            var minted := if op.OpStartEpisode? && s.out.ALLOW? then Some(e.counter) else None;
            Perform(e, On(id, op)) ==
            Reaction(EngineState(e.workloads[id := s.w], CounterAfter(e, op), if s.out.ALLOW? then Kept(e.shelf, s.w) else e.shelf),
                     EngineResult(s.out, minted, s.w.generation))
  {
    hide Apply, Kept;
  }

  lemma RegistersOnce(e: EngineState, id: u64, name: Bytes, intent: Bytes, policy: Policy)
    ensures var w := Created(id, name, intent, policy);
            Perform(e, Register(id, name, intent, policy)) ==
            if id in e.workloads then Reaction(e, EngineResult(REJECT_DUPLICATE_WORKLOAD, None, 0))
            else Reaction(e.(workloads := e.workloads[id := w], shelf := Kept(e.shelf, w)), EngineResult(ALLOW, None, 1))
  {
    hide Created, Kept;
  }

  lemma CreatedIs(id: u64, name: Bytes, intent: Bytes, policy: Policy)
    ensures var w := Created(id, name, intent, policy); w.ident.id == id && w.generation == 1 && Paired(w.deps)
  {
  }

  class WorkloadEngine {
    const store: MemoryStateStore?
    var workloads: map<u64, DurableWorkload>
    var episodeCounter: u64
    /** Every object of every workload. */
    ghost var objects: set<object>

    static ghost predicate Separate(a: DurableWorkload, b: DurableWorkload) {
      a != b && a.contract != b.contract && a.deps != b.deps && a.progress != b.progress
    }

    ghost predicate Owns(w: DurableWorkload)
      reads this
    {
      w in objects && w.contract in objects && w.deps in objects && w.progress in objects
    }

    /** No two workloads share an object. */
    ghost predicate Shape()
      reads this
    {
      && (forall i | i in workloads :: Owns(workloads[i]))
      && (forall i, j | i in workloads && j in workloads && i != j :: Separate(workloads[i], workloads[j]))
      && this as object !in objects && store as object? !in objects
    }

    static ghost predicate Filed(w: Workload, id: u64) {
      Paired(w.deps) && w.ident.id == id
    }

    /** Each workload is filed under its own id. */
    ghost predicate Valid()
      reads this, objects
    {
      Shape() && forall i | i in workloads :: Filed(workloads[i].View(), i)
    }

    ghost function View(): EngineState
      requires Shape()
      reads this, store, objects
    {
      EngineState(map i | i in workloads :: workloads[i].View(), episodeCounter,
                  if store == null then None else Some(store.records))
    }

    constructor (store: MemoryStateStore?)
      ensures Valid() && this.store == store && objects == {}
      ensures View() == EngineState(map[], FIRST_EPISODE_ID, if store == null then None else Some(store.records))
    {
      this.store := store;
      workloads := map[];
      episodeCounter := FIRST_EPISODE_ID;
      objects := {};
    }

    /** One workload was replaced in the map's values; nothing else changed. */
    lemma Refiled(before: EngineState, id: u64)
      requires Shape() && id in workloads && before.workloads.Keys == workloads.Keys
      requires forall i | i in workloads && i != id :: workloads[i].View() == before.workloads[i]
      requires forall i | i in before.workloads :: Filed(before.workloads[i], i)
      requires Filed(workloads[id].View(), id)
      requires before.counter == episodeCounter && before.shelf == if store == null then None else Some(store.records)
      ensures Valid() && View() == before.(workloads := before.workloads[id := workloads[id].View()])
    {
      hide DurableWorkload.View, Filed;
    }

    static lemma FiledPaired(w: Workload, id: u64)
      requires Filed(w, id)
      ensures Paired(w.deps)
    {
    }

    static lemma Fields(w: DurableWorkload)
      ensures w.View().ident.id == w.id && w.View().generation == w.generation
    {
    }

    /** Saves the workload when there is a store. */
    method Persist(w: DurableWorkload)
      modifies store
      ensures store != null ==> store.records == Saved(old(store.records), w.View().ident.id, EncodeRecord(w.View()))
    {
      hide EncodeRecord, Saved, DurableWorkload.View;
      if store != null {
        var _ := store.Save(w);
      }
      Fields(w);
    }

    /** The workload `id` moved on from `before` as `op` says, and nothing else did. */
    ghost predicate MovedOn(before: EngineState, id: u64, op: Op, out: Outcome)
      reads this, store, objects
    {
      && Shape() && id in workloads && before.workloads.Keys == workloads.Keys
      && (forall i | i in workloads :: Filed(before.workloads[i], i))
      && (forall i | i in workloads && i != id :: workloads[i].View() == before.workloads[i])
      && Step(workloads[id].View(), out) == Apply(before.workloads[id], op, before.counter)
      && episodeCounter == CounterAfter(before, op)
      && before.shelf == if store == null then None else Some(store.records)
    }

    lemma MovedOnView(before: EngineState, id: u64, op: Op, out: Outcome)
      requires MovedOn(before, id, op, out)
      ensures Valid() && id in workloads && id in before.workloads
      ensures Step(workloads[id].View(), out) == Apply(before.workloads[id], op, before.counter)
      ensures View() == before.(workloads := before.workloads[id := workloads[id].View()], counter := CounterAfter(before, op))
    {
      hide Apply, DurableWorkload.View, Paired;
      StepKeepsIdentity(before.workloads[id], Call(op, before.counter));
      Refiled(before.(counter := episodeCounter), id);
    }

    /** The common end of every call: the new generation is reported, and an allowed call is saved. */
    method Conclude(id: u64, out: Outcome, minted: Option<u64>) returns (r: EngineResult)
      requires Valid() && id in workloads
      modifies store
      ensures Valid()
      ensures View() == old(View()).(shelf := if out.ALLOW? then Kept(old(View()).shelf, workloads[id].View()) else old(View()).shelf)
      ensures r == EngineResult(out, if out.ALLOW? then minted else None, workloads[id].View().generation)
    {
      hide EncodeRecord, Saved, DurableWorkload.View, Filed;
      ghost var before := View();
      if out.ALLOW? {
        Persist(workloads[id]);
        assert forall i | i in workloads :: workloads[i].View() == before.workloads[i];
      }
      Fields(workloads[id]);
      r := EngineResult(out, if out.ALLOW? then minted else None, workloads[id].generation);
    }

    lemma Joined(before: EngineState, w: DurableWorkload, created: Workload, id: u64)
      requires Shape() && id in workloads && workloads[id] == w && w.View() == created && Filed(created, id)
      requires before.workloads.Keys == workloads.Keys - {id}
      requires forall i | i in before.workloads :: workloads[i].View() == before.workloads[i] && Filed(before.workloads[i], i)
      requires before.counter == episodeCounter && before.shelf == if store == null then None else Some(store.records)
      ensures Valid() && View() == before.(workloads := before.workloads[id := created])
    {
      hide DurableWorkload.View, Filed;
    }

    /** The next episode id; it is used up whatever becomes of the start. */
    method MintEpisodeId() returns (episode: u64)
      requires Valid()
      modifies this`episodeCounter
      ensures Valid() && View() == old(View()).(counter := Wrap(old(episodeCounter) + 1))
      ensures episode == old(episodeCounter)
      ensures episodeCounter == Wrap(episode + 1)
    {
      hide DurableWorkload.View, Filed;
      episode := episodeCounter;
      episodeCounter := Wrap(episodeCounter + 1);
    }

    method Insert(w: DurableWorkload, id: u64)
      requires Valid() && id !in workloads && Filed(w.View(), id) && w.Repr() !! objects
      requires w.contract as object != this && store as object? !in w.Repr() && this as object !in w.Repr()
      modifies this
      ensures Valid() && objects == old(objects) + w.Repr() && id in workloads && workloads[id] == w
      ensures View() == old(View()).(workloads := old(View()).workloads[id := w.View()])
    {
      hide DurableWorkload.View, Filed;
      ghost var before := View();
      workloads := workloads[id := w];
      objects := objects + w.Repr();
      Joined(before, w, w.View(), id);
    }

    method Emplace(id: u64, name: Bytes, intent: Bytes, policy: Policy)
      requires Valid() && id !in workloads
      modifies this
      ensures Valid() && fresh(objects - old(objects)) && id in workloads
      ensures View() == old(View()).(workloads := old(View()).workloads[id := Created(id, name, intent, policy)])
    {
      hide DurableWorkload.View, Created;
      CreatedIs(id, name, intent, policy);
      ghost var before := View();
      var w := new DurableWorkload.Create(id, name, intent, policy);
      assert View() == before;
      Insert(w, id);
    }

    method Register(id: u64, name: Bytes, intent: Bytes, policy: Policy) returns (r: EngineResult)
      requires Valid()
      modifies this, store
      ensures Valid() && fresh(objects - old(objects))
      ensures Reaction(View(), r) == Perform(old(View()), EngineCall.Register(id, name, intent, policy))
    {
      hide Kept, DurableWorkload.View, Perform, Created, Filed;
      RegistersOnce(View(), id, name, intent, policy);
      CreatedIs(id, name, intent, policy);
      if id in workloads {
        return EngineResult(REJECT_DUPLICATE_WORKLOAD, None, 0);
      }
      Emplace(id, name, intent, policy);
      assert workloads[id].View() == View().workloads[id];
      r := Conclude(id, ALLOW, None);
    }

    method Exists(id: u64) returns (found: bool)
      requires Valid()
      ensures found <==> id in View().workloads
    {
      found := id in workloads;
    }

    /** A copy of the workload, if there is one. */
    method Find(id: u64) returns (w: Option<Workload>)
      requires Valid()
      ensures w == if id in View().workloads then Some(View().workloads[id]) else None
    {
      w := if id in workloads then Some(workloads[id].View()) else None;
    }

    method Validate(id: u64) returns (r: EngineResult)
      requires Valid()
      modifies this, store, objects
      ensures Valid() && objects == old(objects)
      ensures Reaction(View(), r) == Perform(old(View()), On(id, OpValidate))
    {
      hide Apply, Perform, Kept, DurableWorkload.View, Filed, Guarded;
      if id !in workloads {
        UnknownWorkload(View(), id, OpValidate);
        return EngineResult(REJECT_WORKLOAD_NOT_FOUND, None, 0);
      }
      var w := workloads[id];
      ghost var before := View();
      Fields(w);
      ValidateIs(before.workloads[id], before.counter);
      var out := w.GuardedTransition(VALIDATING, w.generation, Ascii("validate"));
      MovedOnView(before, id, OpValidate, out);
      KnownWorkload(before, id, OpValidate);
      r := Conclude(id, out, None);
    }

    method InstallPolicy(id: u64, policy: Policy, ghost before: EngineState)
      requires Valid() && id in workloads && before == View()
      modifies objects
      ensures MovedOn(before, id, OpSetPolicy(policy), ALLOW)
    {
      hide Apply, DurableWorkload.View, Filed;
      SetPolicyIs(before.workloads[id], policy, before.counter);
      var w := workloads[id];
      w.SetPolicy(policy);
    }

    method SetPolicy(id: u64, policy: Policy) returns (r: EngineResult)
      requires Valid()
      modifies this, store, objects
      ensures Valid() && objects == old(objects)
      ensures Reaction(View(), r) == Perform(old(View()), On(id, OpSetPolicy(policy)))
    {
      hide Apply, Perform, Kept, DurableWorkload.View, Filed, MovedOn;
      if id !in workloads {
        UnknownWorkload(View(), id, OpSetPolicy(policy));
        return EngineResult(REJECT_WORKLOAD_NOT_FOUND, None, 0);
      }
      ghost var before := View();
      InstallPolicy(id, policy, before);
      MovedOnView(before, id, OpSetPolicy(policy), ALLOW);
      KnownWorkload(before, id, OpSetPolicy(policy));
      r := Conclude(id, ALLOW, None);
    }

    method AddDependency(id: u64, def: DependencyDef) returns (r: EngineResult)
      requires Valid()
      modifies this, store, objects
      ensures Valid() && objects == old(objects)
      ensures Reaction(View(), r) == Perform(old(View()), On(id, OpAddDependency(def)))
    {
      hide Apply, Perform, Kept, DurableWorkload.View, Filed, Defined;
      if id !in workloads {
        UnknownWorkload(View(), id, OpAddDependency(def));
        return EngineResult(REJECT_WORKLOAD_NOT_FOUND, None, 0);
      }
      var w := workloads[id];
      ghost var before := View();
      AddDependencyIs(before.workloads[id], def, before.counter);
      var out := w.AddDependency(def);
      MovedOnView(before, id, OpAddDependency(def), out);
      KnownWorkload(before, id, OpAddDependency(def));
      r := Conclude(id, out, None);
    }

    method SetDependencyStatus(id: u64, index: nat, status: DependencyStatus, observed: u64) returns (r: EngineResult)
      requires Valid()
      modifies this, store, objects
      ensures Valid() && objects == old(objects)
      ensures Reaction(View(), r) == Perform(old(View()), On(id, OpSetDependencyStatus(index, status, observed)))
    {
      hide Apply, Perform, Kept, DurableWorkload.View, Filed, Reported, ReportOutcome;
      if id !in workloads {
        UnknownWorkload(View(), id, OpSetDependencyStatus(index, status, observed));
        return EngineResult(REJECT_WORKLOAD_NOT_FOUND, None, 0);
      }
      var w := workloads[id];
      ghost var before := View();
      SetDependencyStatusIs(before.workloads[id], index, status, observed, before.counter);
      var out := w.SetDependencyStatus(index, status, observed);
      MovedOnView(before, id, OpSetDependencyStatus(index, status, observed), out);
      KnownWorkload(before, id, OpSetDependencyStatus(index, status, observed));
      r := Conclude(id, out, None);
    }

    method AddResourceRequirement(id: u64, req: Requirement) returns (r: EngineResult)
      requires Valid()
      modifies this, store, objects
      ensures Valid() && objects == old(objects)
      ensures Reaction(View(), r) == Perform(old(View()), On(id, OpAddRequirement(req)))
    {
      hide Apply, Perform, Kept, DurableWorkload.View, Filed, WithRequirement, AddOutcome;
      if id !in workloads {
        UnknownWorkload(View(), id, OpAddRequirement(req));
        return EngineResult(REJECT_WORKLOAD_NOT_FOUND, None, 0);
      }
      var w := workloads[id];
      ghost var before := View();
      AddRequirementIs(before.workloads[id], req, before.counter);
      var out := w.AddRequirement(req);
      MovedOnView(before, id, OpAddRequirement(req), out);
      KnownWorkload(before, id, OpAddRequirement(req));
      r := Conclude(id, out, None);
    }

    method ApplyGrant(id: u64, grant: Grant) returns (r: EngineResult)
      requires Valid()
      modifies this, store, objects
      ensures Valid() && objects == old(objects)
      ensures Reaction(View(), r) == Perform(old(View()), On(id, OpApplyGrant(grant)))
    {
      hide Apply, Perform, Kept, DurableWorkload.View, Filed, WithGrant;
      if id !in workloads {
        UnknownWorkload(View(), id, OpApplyGrant(grant));
        return EngineResult(REJECT_WORKLOAD_NOT_FOUND, None, 0);
      }
      var w := workloads[id];
      ghost var before := View();
      ApplyGrantIs(before.workloads[id], grant, before.counter);
      var out := w.ApplyGrant(grant);
      MovedOnView(before, id, OpApplyGrant(grant), out);
      KnownWorkload(before, id, OpApplyGrant(grant));
      r := Conclude(id, out, None);
    }

    method Settle(id: u64) returns (r: EngineResult)
      requires Valid()
      modifies this, store, objects
      ensures Valid() && objects == old(objects)
      ensures Reaction(View(), r) == Perform(old(View()), On(id, OpSettle))
    {
      hide Apply, Perform, Kept, DurableWorkload.View, Filed, Model.Settle;
      if id !in workloads {
        UnknownWorkload(View(), id, OpSettle);
        return EngineResult(REJECT_WORKLOAD_NOT_FOUND, None, 0);
      }
      var w := workloads[id];
      ghost var before := View();
      Fields(w);
      assert Paired(before.workloads[id].deps) by { FiledPaired(before.workloads[id], id); }
      SettleIs(before.workloads[id], before.counter);
      var out := w.SettleInto(w.generation);
      MovedOnView(before, id, OpSettle, out);
      KnownWorkload(before, id, OpSettle);
      r := Conclude(id, out, None);
    }

    /** Starts on the workload with an id already minted. */
    method StartMinted(id: u64, episode: u64, owner: u64, ownerGen: u64, ghost before: EngineState) returns (out: Outcome)
      requires Valid() && id in workloads && before == View().(counter := episode) && episodeCounter == Wrap(episode + 1)
      modifies objects
      ensures MovedOn(before, id, OpStartEpisode(owner, ownerGen), out)
    {
      hide Apply, DurableWorkload.View, Filed, Model.StartEpisode;
      StartEpisodeIs(before.workloads[id], owner, ownerGen, episode);
      var w := workloads[id];
      out := w.Start(episode, owner, ownerGen, true);
    }

    method StartEpisode(id: u64, owner: u64, ownerGen: u64) returns (r: EngineResult)
      requires Valid()
      modifies this, store, objects
      ensures Valid() && objects == old(objects)
      ensures Reaction(View(), r) == Perform(old(View()), On(id, OpStartEpisode(owner, ownerGen)))
    {
      hide Apply, Perform, Kept, DurableWorkload.View, Filed, MovedOn;
      if id !in workloads {
        UnknownWorkload(View(), id, OpStartEpisode(owner, ownerGen));
        return EngineResult(REJECT_WORKLOAD_NOT_FOUND, None, 0);
      }
      ghost var before := View();
      var episode := MintEpisodeId();
      var out := StartMinted(id, episode, owner, ownerGen, before);
      MovedOnView(before, id, OpStartEpisode(owner, ownerGen), out);
      KnownWorkload(before, id, OpStartEpisode(owner, ownerGen));
      r := Conclude(id, out, Some(episode));
    }

    method AdmitDispatch(id: u64, episode: u64, worker: u64, boot: u64) returns (r: EngineResult)
      requires Valid()
      modifies this, store, objects
      ensures Valid() && objects == old(objects)
      ensures Reaction(View(), r) == Perform(old(View()), On(id, OpAdmitDispatch(episode, worker, boot)))
    {
      hide Apply, Perform, Kept, DurableWorkload.View, Filed, Model.AdmitDispatch;
      if id !in workloads {
        UnknownWorkload(View(), id, OpAdmitDispatch(episode, worker, boot));
        return EngineResult(REJECT_WORKLOAD_NOT_FOUND, None, 0);
      }
      var w := workloads[id];
      ghost var before := View();
      AdmitDispatchIs(before.workloads[id], episode, worker, boot, before.counter);
      var out := w.Admit(episode, worker, boot);
      MovedOnView(before, id, OpAdmitDispatch(episode, worker, boot), out);
      KnownWorkload(before, id, OpAdmitDispatch(episode, worker, boot));
      r := Conclude(id, out, None);
    }

    method Progress(id: u64, episode: u64, episodeGen: u64, delta: u64, durable: bool) returns (r: EngineResult)
      requires Valid()
      modifies this, store, objects
      ensures Valid() && objects == old(objects)
      ensures Reaction(View(), r) == Perform(old(View()), On(id, OpProgress(episode, episodeGen, delta, durable)))
    {
      hide Apply, Perform, Kept, DurableWorkload.View, Filed, ReportProgress;
      if id !in workloads {
        UnknownWorkload(View(), id, OpProgress(episode, episodeGen, delta, durable));
        return EngineResult(REJECT_WORKLOAD_NOT_FOUND, None, 0);
      }
      var w := workloads[id];
      ghost var before := View();
      ProgressIs(before.workloads[id], episode, episodeGen, delta, durable, before.counter);
      var out := w.Report(episode, episodeGen, delta, durable);
      MovedOnView(before, id, OpProgress(episode, episodeGen, delta, durable), out);
      KnownWorkload(before, id, OpProgress(episode, episodeGen, delta, durable));
      r := Conclude(id, out, None);
    }

    method EpisodeCompleted(id: u64, episode: u64) returns (r: EngineResult)
      requires Valid()
      modifies this, store, objects
      ensures Valid() && objects == old(objects)
      ensures Reaction(View(), r) == Perform(old(View()), On(id, OpEpisodeCompleted(episode)))
    {
      hide Apply, Perform, Kept, DurableWorkload.View, Filed, MarkCompleted;
      if id !in workloads {
        UnknownWorkload(View(), id, OpEpisodeCompleted(episode));
        return EngineResult(REJECT_WORKLOAD_NOT_FOUND, None, 0);
      }
      var w := workloads[id];
      ghost var before := View();
      EpisodeCompletedIs(before.workloads[id], episode, before.counter);
      var out := w.MarkEpisodeCompleted(episode);
      MovedOnView(before, id, OpEpisodeCompleted(episode), out);
      KnownWorkload(before, id, OpEpisodeCompleted(episode));
      r := Conclude(id, out, None);
    }

    method CommitCompletion(id: u64, expecting: u64) returns (r: EngineResult)
      requires Valid()
      modifies this, store, objects
      ensures Valid() && objects == old(objects)
      ensures Reaction(View(), r) == Perform(old(View()), On(id, OpCommitCompletion(expecting)))
    {
      hide Apply, Perform, Kept, DurableWorkload.View, Filed, Model.CommitCompletion;
      if id !in workloads {
        UnknownWorkload(View(), id, OpCommitCompletion(expecting));
        return EngineResult(REJECT_WORKLOAD_NOT_FOUND, None, 0);
      }
      var w := workloads[id];
      ghost var before := View();
      CommitCompletionIs(before.workloads[id], expecting, before.counter);
      var out := w.Commit(expecting);
      MovedOnView(before, id, OpCommitCompletion(expecting), out);
      KnownWorkload(before, id, OpCommitCompletion(expecting));
      r := Conclude(id, out, None);
    }

    method OnWorkerLost(id: u64, worker: u64, boot: u64, expecting: u64) returns (r: EngineResult)
      requires Valid()
      modifies this, store, objects
      ensures Valid() && objects == old(objects)
      ensures Reaction(View(), r) == Perform(old(View()), On(id, OpWorkerLost(worker, boot, expecting)))
    {
      hide Apply, Perform, Kept, DurableWorkload.View, Filed, WorkerLost;
      if id !in workloads {
        UnknownWorkload(View(), id, OpWorkerLost(worker, boot, expecting));
        return EngineResult(REJECT_WORKLOAD_NOT_FOUND, None, 0);
      }
      var w := workloads[id];
      ghost var before := View();
      WorkerLostIs(before.workloads[id], worker, boot, expecting, before.counter);
      var out := w.OnWorkerLost(worker, boot, expecting);
      MovedOnView(before, id, OpWorkerLost(worker, boot, expecting), out);
      KnownWorkload(before, id, OpWorkerLost(worker, boot, expecting));
      r := Conclude(id, out, None);
    }

    method PlanRestart(id: u64, reason: Bytes, expecting: u64) returns (r: EngineResult)
      requires Valid()
      modifies this, store, objects
      ensures Valid() && objects == old(objects)
      ensures Reaction(View(), r) == Perform(old(View()), On(id, OpPlanRestart(reason, expecting)))
    {
      hide Apply, Perform, Kept, DurableWorkload.View, Filed, Model.PlanRestart;
      if id !in workloads {
        UnknownWorkload(View(), id, OpPlanRestart(reason, expecting));
        return EngineResult(REJECT_WORKLOAD_NOT_FOUND, None, 0);
      }
      var w := workloads[id];
      ghost var before := View();
      PlanRestartIs(before.workloads[id], reason, expecting, before.counter);
      var out := w.Restart(expecting, reason);
      MovedOnView(before, id, OpPlanRestart(reason, expecting), out);
      KnownWorkload(before, id, OpPlanRestart(reason, expecting));
      r := Conclude(id, out, None);
    }

    method RequestSuspend(id: u64, expecting: u64) returns (r: EngineResult)
      requires Valid()
      modifies this, store, objects
      ensures Valid() && objects == old(objects)
      ensures Reaction(View(), r) == Perform(old(View()), On(id, OpRequestSuspend(expecting)))
    {
      hide Apply, Perform, Kept, DurableWorkload.View, Filed, Model.RequestSuspend;
      if id !in workloads {
        UnknownWorkload(View(), id, OpRequestSuspend(expecting));
        return EngineResult(REJECT_WORKLOAD_NOT_FOUND, None, 0);
      }
      var w := workloads[id];
      ghost var before := View();
      RequestSuspendIs(before.workloads[id], expecting, before.counter);
      var out := w.Suspend(expecting);
      MovedOnView(before, id, OpRequestSuspend(expecting), out);
      KnownWorkload(before, id, OpRequestSuspend(expecting));
      r := Conclude(id, out, None);
    }

    method CompleteSuspend(id: u64, expecting: u64) returns (r: EngineResult)
      requires Valid()
      modifies this, store, objects
      ensures Valid() && objects == old(objects)
      ensures Reaction(View(), r) == Perform(old(View()), On(id, OpCompleteSuspend(expecting)))
    {
      hide Apply, Perform, Kept, DurableWorkload.View, Filed, Model.CompleteSuspend;
      if id !in workloads {
        UnknownWorkload(View(), id, OpCompleteSuspend(expecting));
        return EngineResult(REJECT_WORKLOAD_NOT_FOUND, None, 0);
      }
      var w := workloads[id];
      ghost var before := View();
      CompleteSuspendIs(before.workloads[id], expecting, before.counter);
      var out := w.FinishSuspend(expecting);
      MovedOnView(before, id, OpCompleteSuspend(expecting), out);
      KnownWorkload(before, id, OpCompleteSuspend(expecting));
      r := Conclude(id, out, None);
    }

    method RequestResume(id: u64, expecting: u64) returns (r: EngineResult)
      requires Valid()
      modifies this, store, objects
      ensures Valid() && objects == old(objects)
      ensures Reaction(View(), r) == Perform(old(View()), On(id, OpRequestResume(expecting)))
    {
      hide Apply, Perform, Kept, DurableWorkload.View, Filed, Model.RequestResume;
      if id !in workloads {
        UnknownWorkload(View(), id, OpRequestResume(expecting));
        return EngineResult(REJECT_WORKLOAD_NOT_FOUND, None, 0);
      }
      var w := workloads[id];
      ghost var before := View();
      RequestResumeIs(before.workloads[id], expecting, before.counter);
      var out := w.Resume(expecting);
      MovedOnView(before, id, OpRequestResume(expecting), out);
      KnownWorkload(before, id, OpRequestResume(expecting));
      r := Conclude(id, out, None);
    }

    method RequestMigration(id: u64, expecting: u64) returns (r: EngineResult)
      requires Valid()
      modifies this, store, objects
      ensures Valid() && objects == old(objects)
      ensures Reaction(View(), r) == Perform(old(View()), On(id, OpRequestMigration(expecting)))
    {
      hide Apply, Perform, Kept, DurableWorkload.View, Filed, Model.RequestMigration;
      if id !in workloads {
        UnknownWorkload(View(), id, OpRequestMigration(expecting));
        return EngineResult(REJECT_WORKLOAD_NOT_FOUND, None, 0);
      }
      var w := workloads[id];
      ghost var before := View();
      RequestMigrationIs(before.workloads[id], expecting, before.counter);
      var out := w.Migrate(expecting);
      MovedOnView(before, id, OpRequestMigration(expecting), out);
      KnownWorkload(before, id, OpRequestMigration(expecting));
      r := Conclude(id, out, None);
    }

    method CommitMigration(id: u64, expecting: u64, worker: u64, boot: u64) returns (r: EngineResult)
      requires Valid()
      modifies this, store, objects
      ensures Valid() && objects == old(objects)
      ensures Reaction(View(), r) == Perform(old(View()), On(id, OpCommitMigration(expecting, worker, boot)))
    {
      hide Apply, Perform, Kept, DurableWorkload.View, Filed, Model.CommitMigration;
      if id !in workloads {
        UnknownWorkload(View(), id, OpCommitMigration(expecting, worker, boot));
        return EngineResult(REJECT_WORKLOAD_NOT_FOUND, None, 0);
      }
      var w := workloads[id];
      ghost var before := View();
      CommitMigrationIs(before.workloads[id], expecting, worker, boot, before.counter);
      var out := w.FinishMigration(expecting, worker, boot);
      MovedOnView(before, id, OpCommitMigration(expecting, worker, boot), out);
      KnownWorkload(before, id, OpCommitMigration(expecting, worker, boot));
      r := Conclude(id, out, None);
    }

    method Cancel(id: u64, expecting: u64) returns (r: EngineResult)
      requires Valid()
      modifies this, store, objects
      ensures Valid() && objects == old(objects)
      ensures Reaction(View(), r) == Perform(old(View()), On(id, OpCancel(expecting)))
    {
      hide Apply, Perform, Kept, DurableWorkload.View, Filed, RequestCancellation;
      if id !in workloads {
        UnknownWorkload(View(), id, OpCancel(expecting));
        return EngineResult(REJECT_WORKLOAD_NOT_FOUND, None, 0);
      }
      var w := workloads[id];
      ghost var before := View();
      CancelIs(before.workloads[id], expecting, before.counter);
      var out := w.RequestCancel(expecting);
      MovedOnView(before, id, OpCancel(expecting), out);
      KnownWorkload(before, id, OpCancel(expecting));
      r := Conclude(id, out, None);
    }

    method CompleteCancellation(id: u64, expecting: u64) returns (r: EngineResult)
      requires Valid()
      modifies this, store, objects
      ensures Valid() && objects == old(objects)
      ensures Reaction(View(), r) == Perform(old(View()), On(id, OpCompleteCancellation(expecting)))
    {
      hide Apply, Perform, Kept, DurableWorkload.View, Filed, Model.CompleteCancellation;
      if id !in workloads {
        UnknownWorkload(View(), id, OpCompleteCancellation(expecting));
        return EngineResult(REJECT_WORKLOAD_NOT_FOUND, None, 0);
      }
      var w := workloads[id];
      ghost var before := View();
      CompleteCancellationIs(before.workloads[id], expecting, before.counter);
      var out := w.FinishCancel(expecting);
      MovedOnView(before, id, OpCompleteCancellation(expecting), out);
      KnownWorkload(before, id, OpCompleteCancellation(expecting));
      r := Conclude(id, out, None);
    }
  }
}

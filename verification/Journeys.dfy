/** What one engine call does, in literal terms, and an engine run that completes its workload (src/coordinator.cpp). */
module Journeys {
  import opened Basics
  import opened Vocabulary
  import opened ProgressModel
  import opened Dependencies
  import opened Resources
  import opened Model
  import opened Lifecycle
  import opened Engine
  import opened Verdicts

  // ---- One call --------------------------------------------------------------

  /** A registered workload: generation, revision and epoch are 1, migration ids start at 2000, everything else is empty. */
  lemma RegisterVerdict(e: EngineState, id: u64, name: Bytes, intent: Bytes, policy: Policy)
    ensures var re := Perform(e, Register(id, name, intent, policy));
            if id in e.workloads then re == Reaction(e, EngineResult(REJECT_DUPLICATE_WORKLOAD, None, 0))
            else
              && re.r == EngineResult(ALLOW, None, 1) && re.e.counter == e.counter
              && re.e.workloads == e.workloads[id := Workload(
                   Identity(id, name, intent, Priority(0, 0, NORMAL, 0, 0, false, true, false), 0, 0, 1), 1, 1, CREATED, policy,
                   Contract(0, 0, [], Grant(0, 0, GRANT_REQUESTED, false, [])), Deps(0, 0, [], []),
                   Progress(0, TOTAL_UNKNOWN, 0, 0, DURABLE_KNOWN, 0, true), Restarts(0, 0, [], 0), Migrations(0, 0, 2000),
                   0, Cancellation(false, false, false), [], [])]
  {
    hide Kept;
  }

  /** A call on an unknown id is refused; one on a known id acts on that workload alone, and a start uses up an id. */
  lemma CallVerdict(e: EngineState, id: u64, op: Op)
    ensures var re := Perform(e, On(id, op));
            if id !in e.workloads then re == Reaction(e, EngineResult(REJECT_WORKLOAD_NOT_FOUND, None, 0))
            else
              var s := Apply(e.workloads[id], op, e.counter);
              && re.e.workloads == e.workloads[id := s.w]
              && re.e.counter == (if op.OpStartEpisode? then Next(e.counter) else e.counter)
              && re.r == EngineResult(s.out, if op.OpStartEpisode? && s.out == ALLOW then Some(e.counter) else None, s.w.generation)
              && (s.out != ALLOW ==> re.e.shelf == e.shelf)
  {
    hide Apply, Kept;
  }

  // ---- A run that completes ----------------------------------------------------

  lemma EngineSnoc(e: EngineState, calls: seq<EngineCall>, c: EngineCall)
    ensures EngineRun(e, calls + [c]) == Perform(EngineRun(e, calls), c).e
  {
    hide Perform;
    assert (calls + [c])[..|calls|] == calls;
  }

  /** One workload of the engine and the id it mints next. */
  predicate Has(e: EngineState, id: u64, w: Workload, counter: u64) {
    id in e.workloads && e.workloads[id] == w && e.counter == counter
  }

  lemma NextCall(e: EngineState, calls: seq<EngineCall>, id: u64, w: Workload, counter: u64, op: Op)
    requires Has(EngineRun(e, calls), id, w, counter)
    ensures Has(EngineRun(e, calls + [On(id, op)]), id, Apply(w, op, counter).w,
                if op.OpStartEpisode? then Next(counter) else counter)
  {
    hide EngineRun, Perform, Apply;
    EngineSnoc(e, calls, On(id, op));
    CallVerdict(EngineRun(e, calls), id, op);
  }

  /** Registers, gets ready, runs one episode on worker 7 and commits its result. */
  function ToCompletion(id: u64, name: Bytes, intent: Bytes, policy: Policy): seq<EngineCall> {
    [] + [Register(id, name, intent, policy)] + [On(id, OpApplyGrant(NO_GRANT))] + [On(id, OpValidate)] + [On(id, OpSettle)]
    + [On(id, OpStartEpisode(1, 1))] + [On(id, OpAdmitDispatch(1000, 7, 9))] + [On(id, OpEpisodeCompleted(1000))]
    + [On(id, OpCommitCompletion(2))]
  }

  /** What matters of the workload on its way. */
  predicate OnTheWay(w: Workload, s: WorkloadState, generation: u64, policy: Policy) {
    && w.state == s && w.generation == generation && w.policy == policy && DepsReady(w.deps)
    && w.cancel == Cancellation(false, false, false) && Handoff(w.episodes, w.progress)
  }

  predicate Ready(w: Workload, s: WorkloadState, policy: Policy) {
    OnTheWay(w, s, 1, policy) && w.episodes == [] && Satisfied(w.contract)
  }

  lemma Granted(id: u64, name: Bytes, intent: Bytes, policy: Policy)
    ensures Ready(Apply(Created(id, name, intent, policy), OpApplyGrant(NO_GRANT), 1000).w, CREATED, policy)
  {
  }

  lemma Validated(w: Workload, policy: Policy)
    requires Ready(w, CREATED, policy)
    ensures Ready(Apply(w, OpValidate, 1000).w, VALIDATING, policy)
  {
    hide Satisfied, DepsReady, Handoff;
  }

  lemma Settled(w: Workload, policy: Policy)
    requires Ready(w, VALIDATING, policy)
    ensures Ready(Apply(w, OpSettle, 1000).w, READY, policy)
  {
    hide Satisfied, DepsReady, Handoff;
  }

  predicate Working(w: Workload, s: WorkloadState, policy: Policy, state: EpisodeState) {
    OnTheWay(w, s, 2, policy) && |w.episodes| == 1 && w.episodes[0].id == 1000 && w.episodes[0].state == state
  }

  lemma Launched(w: Workload, policy: Policy)
    requires Ready(w, READY, policy)
    ensures Working(Apply(w, OpStartEpisode(1, 1), 1000).w, STARTING, policy, EP_ADMITTED)
  {
    hide Apply, Satisfied, DepsReady;
    StepKeepsHandoff(w, OpStartEpisode(1, 1), 1000);
    hide Handoff;
    StartVerdict(w, 1, 1, 1000);
  }

  lemma Admitted(w: Workload, policy: Policy)
    requires Working(w, STARTING, policy, EP_ADMITTED)
    ensures Working(Apply(w, OpAdmitDispatch(1000, 7, 9), 1001).w, RUNNING, policy, EP_RUNNING)
  {
    hide Apply, Handoff, DepsReady;
    StepKeepsHandoff(w, OpAdmitDispatch(1000, 7, 9), 1001);
    AdmitVerdict(w, 0, 1000, 7, 9, 1001);
  }

  lemma Marked(w: Workload, policy: Policy)
    requires Working(w, RUNNING, policy, EP_RUNNING)
    ensures var v := Apply(w, OpEpisodeCompleted(1000), 1001).w;
            Working(v, RUNNING, policy, EP_COMPLETED) && v.episodes[0].completed
  {
    hide Apply, Handoff, DepsReady;
    StepKeepsHandoff(w, OpEpisodeCompleted(1000), 1001);
    MarkVerdict(w, 0, 1000, 1001);
  }

  lemma Closed(w: Workload, policy: Policy)
    requires Working(w, RUNNING, policy, EP_COMPLETED) && w.episodes[0].completed && policy.completion.kind == SINGLE_RESULT
    ensures Apply(w, OpCommitCompletion(2), 1001).w.state == COMPLETED
  {
    hide Apply, Handoff, DepsReady;
    CommitVerdict(w, 2, 1001);
  }

  /** Under SINGLE_RESULT this run of the engine completes its workload, whatever the id, the texts and the rest of the policy. */
  lemma EngineCompletes(id: u64, name: Bytes, intent: Bytes, policy: Policy, withStore: bool)
    requires policy.completion.kind == SINGLE_RESULT
    ensures var e := EngineRun(Started(withStore), ToCompletion(id, name, intent, policy));
            id in e.workloads && e.workloads[id].state == COMPLETED
  {
    hide EngineRun, Apply, Created, Ready, Working, Perform;
    var e := Started(withStore);
    var w0 := Created(id, name, intent, policy);
    var c0 := [] + [Register(id, name, intent, policy)];
    Registered(id, name, intent, policy, withStore);
    Granted(id, name, intent, policy);
    NextCall(e, c0, id, w0, 1000, OpApplyGrant(NO_GRANT));
    var c1, w1 := c0 + [On(id, OpApplyGrant(NO_GRANT))], Apply(w0, OpApplyGrant(NO_GRANT), 1000).w;
    Validated(w1, policy);
    NextCall(e, c1, id, w1, 1000, OpValidate);
    var c2, w2 := c1 + [On(id, OpValidate)], Apply(w1, OpValidate, 1000).w;
    Settled(w2, policy);
    NextCall(e, c2, id, w2, 1000, OpSettle);
    var c3, w3 := c2 + [On(id, OpSettle)], Apply(w2, OpSettle, 1000).w;
    Launched(w3, policy);
    NextCall(e, c3, id, w3, 1000, OpStartEpisode(1, 1));
    var c4, w4 := c3 + [On(id, OpStartEpisode(1, 1))], Apply(w3, OpStartEpisode(1, 1), 1000).w;
    Admitted(w4, policy);
    NextCall(e, c4, id, w4, 1001, OpAdmitDispatch(1000, 7, 9));
    var c5, w5 := c4 + [On(id, OpAdmitDispatch(1000, 7, 9))], Apply(w4, OpAdmitDispatch(1000, 7, 9), 1001).w;
    Marked(w5, policy);
    NextCall(e, c5, id, w5, 1001, OpEpisodeCompleted(1000));
    var c6, w6 := c5 + [On(id, OpEpisodeCompleted(1000))], Apply(w5, OpEpisodeCompleted(1000), 1001).w;
    IsWorking(w6, policy);
    Closed(w6, policy);
    NextCall(e, c6, id, w6, 1001, OpCommitCompletion(2));
    assert ToCompletion(id, name, intent, policy) == c6 + [On(id, OpCommitCompletion(2))];
  }

  lemma IsWorking(w: Workload, policy: Policy)
    requires Working(w, RUNNING, policy, EP_COMPLETED)
    ensures |w.episodes| == 1
  {
  }

  lemma Registered(id: u64, name: Bytes, intent: Bytes, policy: Policy, withStore: bool)
    ensures Has(EngineRun(Started(withStore), [] + [Register(id, name, intent, policy)]), id, Created(id, name, intent, policy), 1000)
  {
    hide Created, Kept;
    EngineSnoc(Started(withStore), [], Register(id, name, intent, policy));
    assert EngineRun(Started(withStore), []) == Started(withStore);
  }
}

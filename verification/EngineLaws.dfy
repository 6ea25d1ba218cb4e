/** What holds for workloads driven through the engine. */
module EngineLaws {
  import opened Basics
  import opened Vocabulary
  import opened Dependencies
  import opened Resources
  import opened Model
  import opened Lifecycle
  import opened Runs
  import opened Guarantees
  import opened Engine

  /** States that a call only passes through. */
  predicate PassedThrough(s: WorkloadState) {
    s.SUSPENDING? || s.MIGRATING? || s.CANCELLING? || s.COMPLETING?
  }

  /** States that nothing the engine calls leads to. */
  predicate NeverEntered(s: WorkloadState) {
    s.BLOCKED? || s.DEGRADED? || s.PREEMPTION_REQUESTED? || s.PREEMPTED? || s.FAILED_RECOVERABLE? || s.FAILED_TERMINAL? || s.SUPERSEDED?
  }

  lemma PhaseRests(w: Workload)
    requires Inv(w)
    ensures !PassedThrough(w.state) && !NeverEntered(w.state)
  {
    hide LogOk, Handoff;
  }

  /** No engine run ever rests in a transient state, nor reaches a state without a producer. */
  lemma EngineNeverRestsInTransit(calls: seq<EngineCall>, withStore: bool, id: u64)
    requires id in EngineRun(Started(withStore), calls).workloads
    ensures var s := EngineRun(Started(withStore), calls).workloads[id].state; !PassedThrough(s) && !NeverEntered(s)
  {
    hide EngineRun, Inv, PassedThrough, NeverEntered;
    EngineKeepsInv(calls, withStore);
    PhaseRests(EngineRun(Started(withStore), calls).workloads[id]);
  }

  predicate AllOffered(calls: seq<EngineCall>) {
    forall i | 0 <= i < |calls| :: Offered(calls[i])
  }

  lemma {:induction false} StoriesKeepTotal(e: EngineState, calls: seq<EngineCall>, id: u64)
    requires AllOffered(calls)
    ensures StoryOf(e, calls, id).Some? ==> TotalFixed(StoryOf(e, calls, id).value.calls)
    decreases |calls|
  {
    hide EngineRun;
    if calls != [] {
      StoriesKeepTotal(e, calls[..|calls| - 1], id);
    }
  }

  lemma {:induction false} TotalStaysUnknown(w: Workload, calls: seq<Call>, k: nat)
    requires Inv(w) && w.progress.totalKind.TOTAL_UNKNOWN? && TotalFixed(calls) && k <= |calls|
    ensures Run(w, calls[..k]).progress.totalKind.TOTAL_UNKNOWN?
  {
    hide Inv, Run;
    ProgressNeverOverruns(w, calls[..k]);
  }

  /**
   * The engine offers no way to declare a total, so every workload it completes was completed by a commit
   * under SINGLE_RESULT with its last episode marked completed; the other three policies never complete.
   */
  lemma EngineCompletesOnlySingleResult(calls: seq<EngineCall>, withStore: bool, id: u64)
    requires AllOffered(calls) && id in EngineRun(Started(withStore), calls).workloads
    requires EngineRun(Started(withStore), calls).workloads[id].state.COMPLETED?
    ensures var story := StoryOf(Started(withStore), calls, id);
            && story.Some?
            && exists k: nat :: CompletedAt(story.value.birth, story.value.calls, k)
                  && Run(story.value.birth, story.value.calls[..k]).policy.completion.kind.SINGLE_RESULT?
  {
    hide EngineRun, StoryOf, Run, Inv, CompletionEvidence, Made;
    EngineRunsAreWorkloadRuns(calls, id, withStore);
    StoriesKeepTotal(Started(withStore), calls, id);
    var story := StoryOf(Started(withStore), calls, id).value;
    CreatedInv(id, story.birth.ident.name, story.birth.ident.intent, story.birth.policy);
    CompletionRestsOnEvidence(story.birth, story.calls);
    var k: nat :| CompletedAt(story.birth, story.calls, k);
    TotalStaysUnknown(story.birth, story.calls, k);
  }

  // ---- Settling and explaining ---------------------------------------------

  /** Whenever settle is allowed, the workload rests at the gate that explainBlocked then names. */
  lemma SettleAgreesWithExplain(w: Workload, expecting: u64)
    requires Settle(w, expecting).out.ALLOW?
    ensures var v := Settle(w, expecting).w;
            && v.state == Gate(w) && Gate(v) == Gate(w) && ExplainBlocked(v) == ExplainBlocked(w)
            && (ExplainBlocked(v).BLOCKED_DEPENDENCY? <==> v.state.WAITING_FOR_DEPENDENCIES?)
            && (ExplainBlocked(v).BLOCKED_RESOURCE_CONTRACT? <==> v.state.WAITING_FOR_RESOURCES?)
            && (ExplainBlocked(v).ALLOW? <==> v.state.READY?)
  {
    hide Guarded, TransitionOutcome, DepsReady, Satisfied;
    GuardedFrame();
  }

  predicate SettlesFrom(s: WorkloadState, gate: WorkloadState) {
    s == gate || (CanTransition(s, gate) && !IsTerminal(s) && !IsCancelling(s))
  }

  /** Exactly when settle is allowed; a refusal changes nothing but the log. */
  lemma SettleIff(w: Workload, expecting: u64)
    ensures Settle(w, expecting).out.ALLOW? <==> expecting == w.generation && SettlesFrom(w.state, Gate(w))
    ensures !Settle(w, expecting).out.ALLOW? ==> SameButLog(Settle(w, expecting).w, w)
  {
    hide Guarded, Gate;
    GuardedFrame();
    GateIs(w);
  }

  lemma GateIs(w: Workload)
    ensures Gate(w).WAITING_FOR_DEPENDENCIES? || Gate(w).WAITING_FOR_RESOURCES? || Gate(w).READY?
  {
  }
}

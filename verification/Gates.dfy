/** What a workload waits for, and what the calls on policy, contract and dependencies do (src/workload.cpp, src/resources.cpp). */
module Gates {
  import opened Basics
  import opened Vocabulary
  import opened Dependencies
  import opened Resources
  import opened Model
  import opened Amounts
  import opened Verdicts

  /** A required dependency that is not satisfied. */
  predicate Missing(d: Deps) {
    exists i | 0 <= i < |d.defs| ::
      d.defs[i].requirement == DEP_REQUIRED && !(i < |d.states| && d.states[i].status == DEP_SATISFIED)
  }

  /** A live grant that binds every required entry within its bounds, and nothing that is prohibited. */
  predicate Supplied(c: Contract) {
    && c.grant.status == GRANT_GRANTED && !c.grant.released
    && (forall i | 0 <= i < |c.reqs| && c.reqs[i].level == NEED_REQUIRED :: BoundWithin(c.reqs[i], c.grant.bindings))
    && (forall i, j | 0 <= i < |c.reqs| && c.reqs[i].level == NEED_PROHIBITED
                      && 0 <= j < |c.grant.bindings| && c.grant.bindings[j].kind == c.reqs[i].kind ::
          Units(c.grant.bindings[j].amount) <= 0)
  }

  /** Dependencies come first, then resources. */
  function WaitsAt(w: Workload): WorkloadState {
    if Missing(w.deps) then WAITING_FOR_DEPENDENCIES else if !Supplied(w.contract) then WAITING_FOR_RESOURCES else READY
  }

  lemma MissingIff(d: Deps)
    ensures DepsReady(d) <==> !Missing(d)
  {
    if !DepsReady(d) {
      var i: nat :| i < |d.defs| && Unmet(d, i);
    }
    if Missing(d) {
      var i :| 0 <= i < |d.defs| && d.defs[i].requirement == DEP_REQUIRED && !(i < |d.states| && d.states[i].status == DEP_SATISFIED);
      assert Unmet(d, i);
    }
  }

  lemma GateIsWaitsAt(w: Workload)
    requires FiniteContract(w.contract)
    ensures Gate(w) == WaitsAt(w)
  {
    hide DepsReady, Missing, Satisfied, FiniteContract, BoundWithin, Units;
    MissingIff(w.deps);
    SatisfiedIff(w.contract);
  }

  /** From which states each gate can be reached. */
  predicate Reaches(s: WorkloadState, gate: WorkloadState) {
    match gate
    case WAITING_FOR_DEPENDENCIES =>
      s == CREATED || s == VALIDATING || s == BLOCKED || s == WAITING_FOR_RESOURCES || s == READY
    case WAITING_FOR_RESOURCES =>
      s == VALIDATING || s == BLOCKED || s == WAITING_FOR_DEPENDENCIES || s == READY
    case READY =>
      s == VALIDATING || s == BLOCKED || s == WAITING_FOR_DEPENDENCIES || s == WAITING_FOR_RESOURCES || s == STARTING
      || s == SUSPENDED || s == PREEMPTED || s == MIGRATING || s == RECOVERING || s == RESTART_PENDING
    case _ => false
  }

  predicate SettleAnswered(w: Workload, s: Step) {
    var gate := WaitsAt(w);
    var ended := w.state == COMPLETED || w.state == FAILED_TERMINAL || w.state == CANCELLED || w.state == SUPERSEDED;
    if gate != READY && (ended || w.state == CANCELLATION_REQUESTED || w.state == CANCELLING) then s == Step(w, REJECT_TERMINAL)
    else if w.state == gate || Reaches(w.state, gate) then s == Step(Went(w, gate, "settle"), ALLOW)
    else if ended then s == Step(Stayed(w, gate, "settle", REJECT_TERMINAL), REJECT_TERMINAL)
    else s == Step(Stayed(w, gate, "settle", REJECT_INVALID_TRANSITION), REJECT_INVALID_TRANSITION)
  }

  lemma SettleIsAnswered(w: Workload)
    requires FiniteContract(w.contract)
    ensures SettleAnswered(w, Settle(w, w.generation))
  {
    hide Gate, WaitsAt, FiniteContract, Guarded, Went, Stayed;
    GateIsWaitsAt(w);
    EndedIs(w.state);
    WaitsSomewhere(w);
    var gate := WaitsAt(w);
    Already(w, gate, "settle");
    if Reaches(w.state, gate) {
      Taken(w, gate, "settle");
    } else if w.state != gate && IsTerminal(w.state) {
      TooLate(w, gate, "settle");
    } else if w.state != gate {
      NotTaken(w, gate, "settle");
    }
    hide IsTerminal, CanTransition;
  }

  lemma WaitsSomewhere(w: Workload)
    ensures WaitsAt(w) == WAITING_FOR_DEPENDENCIES || WaitsAt(w) == WAITING_FOR_RESOURCES || WaitsAt(w) == READY
  {
  }

  lemma EndedIs(s: WorkloadState)
    ensures IsTerminal(s) <==> s == COMPLETED || s == FAILED_TERMINAL || s == CANCELLED || s == SUPERSEDED
  {
  }

  /** Settling moves to the gate the workload waits at, from the states that gate can be reached from. */
  lemma SettleVerdict(w: Workload, minted: u64)
    requires FiniteContract(w.contract)
    ensures SettleAnswered(w, Apply(w, OpSettle, minted))
  {
    hide Settle, SettleAnswered, FiniteContract;
    SettleIsAnswered(w);
  }

  /** The explanation names the first gate that is closed. */
  lemma ExplainVerdict(w: Workload)
    requires FiniteContract(w.contract)
    ensures ExplainBlocked(w) ==
            if Missing(w.deps) then BLOCKED_DEPENDENCY else if !Supplied(w.contract) then BLOCKED_RESOURCE_CONTRACT else ALLOW
  {
    hide Gate, Missing, Supplied, FiniteContract;
    GateIsWaitsAt(w);
  }

  predicate ValidateAnswered(w: Workload, s: Step) {
    if w.state == VALIDATING then s == Step(w, ALLOW)
    else if w.state == CREATED || w.state == BLOCKED || w.state == WAITING_FOR_DEPENDENCIES || w.state == WAITING_FOR_RESOURCES
    then s == Step(Went(w, VALIDATING, "validate"), ALLOW)
    else if w.state == COMPLETED || w.state == FAILED_TERMINAL || w.state == CANCELLED || w.state == SUPERSEDED
    then s == Step(Stayed(w, VALIDATING, "validate", REJECT_TERMINAL), REJECT_TERMINAL)
    else s == Step(Stayed(w, VALIDATING, "validate", REJECT_INVALID_TRANSITION), REJECT_INVALID_TRANSITION)
  }

  lemma ValidateIsAnswered(w: Workload)
    ensures ValidateAnswered(w, Guarded(w, VALIDATING, w.generation, Ascii("validate")))
  {
    hide Guarded, Went, Stayed;
    Already(w, VALIDATING, "validate");
    if w.state == VALIDATING || CanTransition(w.state, VALIDATING) {
      Taken(w, VALIDATING, "validate");
    } else if IsTerminal(w.state) {
      TooLate(w, VALIDATING, "validate");
    } else {
      NotTaken(w, VALIDATING, "validate");
    }
  }

  /** Validation is entered from CREATED and from the gates before READY. */
  lemma ValidateVerdict(w: Workload, minted: u64)
    ensures ValidateAnswered(w, Apply(w, OpValidate, minted))
  {
    hide Guarded, ValidateAnswered;
    ValidateIsAnswered(w);
  }

  // ---- Contract, dependencies, policy ------------------------------------------

  /** A requirement is added once per kind and descriptor; a prohibited one carries no values, whatever it came with. */
  lemma AddVerdict(w: Workload, req: Requirement, minted: u64)
    ensures var s, c := Apply(w, OpAddRequirement(req), minted), w.contract;
            if exists i | 0 <= i < |c.reqs| :: c.reqs[i].kind == req.kind && c.reqs[i].spec == req.spec
            then s == Step(w, REJECT_IMMUTABLE_CONTRACT)
            else
              var added := if req.level == NEED_PROHIBITED then Requirement(req.kind, NEED_PROHIBITED, 0, 0, req.spec) else req;
              s == Step(w.(contract := Contract(c.id, Next(c.generation), c.reqs + [added], c.grant)), ALLOW)
  {
    var c := w.contract;
    assert HasKey(c.reqs, req) <==> exists i | 0 <= i < |c.reqs| :: c.reqs[i].kind == req.kind && c.reqs[i].spec == req.spec by {
      if HasKey(c.reqs, req) {
        var i :| 0 <= i < |c.reqs| && SameKey(c.reqs[i], req);
        assert c.reqs[i].kind == req.kind;
      }
      if exists i | 0 <= i < |c.reqs| :: c.reqs[i].kind == req.kind && c.reqs[i].spec == req.spec {
        var i :| 0 <= i < |c.reqs| && c.reqs[i].kind == req.kind && c.reqs[i].spec == req.spec;
        assert SameKey(c.reqs[i], req);
      }
    }
    hide HasKey;
  }

  /** A grant is taken as granted exactly when it was made for the contract's current generation, and as stale otherwise. */
  lemma GrantVerdict(w: Workload, g: Grant, minted: u64)
    ensures var status := if g.contractGeneration == w.contract.generation then GRANT_GRANTED else GRANT_STALE;
            Apply(w, OpApplyGrant(g), minted) ==
            Step(w.(contract := w.contract.(grant := Grant(g.contractId, g.contractGeneration, status, g.released, g.bindings))), ALLOW)
  {
  }

  /** A dependency starts out pending, last in the list. */
  lemma DependencyVerdict(w: Workload, def: DependencyDef, minted: u64)
    ensures Apply(w, OpAddDependency(def), minted) ==
            Step(w.(deps := Deps(w.deps.id, Next(w.deps.generation), w.deps.defs + [def],
                                 w.deps.states + [DependencyState(DEP_PENDING, 0, [])])), ALLOW)
  {
  }

  /** An observation is taken unless it is older than the one before; what it was told in detail stays. */
  lemma StatusVerdict(w: Workload, index: nat, status: DependencyStatus, observed: u64, minted: u64)
    ensures var s, states := Apply(w, OpSetDependencyStatus(index, status, observed), minted), w.deps.states;
            if index >= |states| then s == Step(w, REJECT_UNKNOWN_DEPENDENCY)
            else if observed < states[index].observed then s == Step(w, REJECT_STALE_DEPENDENCY)
            else s == Step(w.(deps := w.deps.(states := states[index := DependencyState(status, observed, states[index].detail)])), ALLOW)
  {
  }

  /** Policy and total are replaced, and nothing else. */
  lemma ReplacingVerdict(w: Workload, policy: Policy, kind: TotalKind, total: u64, minted: u64)
    ensures Apply(w, OpSetPolicy(policy), minted) == Step(w.(policy := policy), ALLOW)
    ensures Apply(w, OpDeclareTotal(kind, total), minted) == Step(w.(progress := w.progress.(totalKind := kind, total := total)), ALLOW)
  {
  }
}

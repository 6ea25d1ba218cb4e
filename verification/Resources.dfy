/** Resource contracts and the reference broker (src/resources.cpp, src/execution/reference.cpp). */
module Resources {
  import opened Basics
  import opened Vocabulary

  datatype Requirement = Requirement(kind: ResourceKind, level: NeedLevel, minValue: F64, maxValue: F64, spec: Bytes)

  datatype Binding = Binding(kind: ResourceKind, amount: F64, qualifier: Bytes)

  datatype Grant = Grant(contractId: u64, contractGeneration: u64, status: GrantStatus, released: bool, bindings: seq<Binding>)

  datatype Contract = Contract(id: u64, generation: u64, reqs: seq<Requirement>, grant: Grant)

  const NO_GRANT: Grant := Grant(0, 0, GRANT_REQUESTED, false, [])
  const NO_CONTRACT: Contract := Contract(0, 0, [], NO_GRANT)

  predicate Positive(v: F64) {
    F64Less(F64_ZERO, v)
  }

  predicate Satisfies(r: Requirement, v: F64) {
    if r.level.NEED_PROHIBITED? then F64Equal(v, F64_ZERO)
    else if F64Less(v, r.minValue) then false
    else if Positive(r.maxValue) && F64Less(r.maxValue, v) then false
    else true
  }

  predicate SameKey(a: Requirement, b: Requirement) {
    a.kind == b.kind && a.spec == b.spec
  }

  predicate HasKey(reqs: seq<Requirement>, r: Requirement) {
    exists i | 0 <= i < |reqs| :: SameKey(reqs[i], r)
  }

  /** A prohibited requirement never carries a value. */
  function Normalized(r: Requirement): Requirement {
    if r.level.NEED_PROHIBITED? then r.(minValue := F64_ZERO, maxValue := F64_ZERO) else r
  }

  function AddOutcome(c: Contract, r: Requirement): Outcome {
    if HasKey(c.reqs, r) then REJECT_IMMUTABLE_CONTRACT else ALLOW
  }

  function WithRequirement(c: Contract, r: Requirement): Contract {
    if HasKey(c.reqs, r) then c
    else c.(reqs := c.reqs + [Normalized(r)], generation := Next(c.generation))
  }

  function WithGrant(c: Contract, g: Grant): Contract {
    c.(grant := g.(status := if g.contractGeneration == c.generation then GRANT_GRANTED else GRANT_STALE))
  }

  predicate MetBy(r: Requirement, bindings: seq<Binding>) {
    exists i | 0 <= i < |bindings| :: bindings[i].kind == r.kind && Satisfies(r, bindings[i].amount)
  }

  predicate ViolatedBy(r: Requirement, bindings: seq<Binding>) {
    exists i | 0 <= i < |bindings| :: bindings[i].kind == r.kind && Positive(bindings[i].amount)
  }

  /** The grant is live, meets each REQUIRED entry and binds nothing PROHIBITED. */
  predicate Satisfied(c: Contract) {
    && c.grant.status.GRANT_GRANTED? && !c.grant.released
    && (forall i | 0 <= i < |c.reqs| && c.reqs[i].level.NEED_REQUIRED? :: MetBy(c.reqs[i], c.grant.bindings))
    && (forall i | 0 <= i < |c.reqs| && c.reqs[i].level.NEED_PROHIBITED? :: !ViolatedBy(c.reqs[i], c.grant.bindings))
  }

  class ResourceContract {
    var id: u64
    var generation: u64
    var reqs: seq<Requirement>
    var grant: Grant

    function View(): Contract
      reads this
    {
      Contract(id, generation, reqs, grant)
    }

    constructor ()
      ensures View() == NO_CONTRACT
    {
      id, generation, reqs, grant := 0, 0, [], NO_GRANT;
    }

    constructor FromValue(c: Contract)
      ensures View() == c
    {
      id, generation, reqs, grant := c.id, c.generation, c.reqs, c.grant;
    }

    method Add(req: Requirement) returns (out: Outcome)
      modifies this
      ensures View() == WithRequirement(old(View()), req)
      ensures out == AddOutcome(old(View()), req)
    {
      var r := req;
      if r.level.NEED_PROHIBITED? {
        r := r.(minValue := F64_ZERO);
        r := r.(maxValue := F64_ZERO);
      }
      var i := 0;
      while i < |reqs|
        invariant 0 <= i <= |reqs|
        invariant forall j | 0 <= j < i :: !SameKey(reqs[j], req)
      {
        if reqs[i].kind == r.kind && reqs[i].spec == r.spec {
          assert SameKey(reqs[i], req);
          return REJECT_IMMUTABLE_CONTRACT;
        }
        i := i + 1;
      }
      reqs := reqs + [r];
      generation := Next(generation);
      return ALLOW;
    }

    method SetRequirements(rs: seq<Requirement>) returns (out: Outcome)
      modifies this
      ensures View() == old(View()).(reqs := rs, generation := Next(old(generation)))
      ensures out == ALLOW
    {
      reqs := rs;
      generation := Next(generation);
      return ALLOW;
    }

    method ApplyGrant(g: Grant) returns (out: Outcome)
      modifies this
      ensures View() == WithGrant(old(View()), g)
      ensures out == ALLOW
    {
      grant := g.(status := if g.contractGeneration == generation then GRANT_GRANTED else GRANT_STALE);
      return ALLOW;
    }

    /** A grant is released at most once, and only by a caller holding the current generation. */
    method ReleaseGrant(expecting: u64) returns (out: Outcome)
      modifies this
      ensures out == (if expecting != old(generation) then REJECT_STALE_RESOURCE_CONTRACT
                      else if old(grant).released then REJECT_RESOURCE_DOUBLE_RELEASE else ALLOW)
      ensures View() == if out.ALLOW? then old(View()).(grant := old(grant).(released := true, status := GRANT_RELEASED))
                        else old(View())
      ensures out.ALLOW? || out.REJECT_RESOURCE_DOUBLE_RELEASE? ==> grant.released
    {
      if expecting != generation {
        return REJECT_STALE_RESOURCE_CONTRACT;
      }
      if grant.released {
        return REJECT_RESOURCE_DOUBLE_RELEASE;
      }
      grant := grant.(released := true);
      grant := grant.(status := GRANT_RELEASED);
      return ALLOW;
    }

    method AdvanceGeneration(expecting: u64) returns (out: Outcome)
      modifies this
      ensures out == if expecting != old(generation) then REJECT_STALE_RESOURCE_CONTRACT else ALLOW
      ensures View() == if out.ALLOW? then old(View()).(generation := Next(old(generation))) else old(View())
    {
      if expecting != generation {
        return REJECT_STALE_RESOURCE_CONTRACT;
      }
      generation := Next(generation);
      return ALLOW;
    }

    method IsMet(r: Requirement) returns (found: bool)
      ensures found <==> MetBy(r, grant.bindings)
    {
      found := false;
      var i := 0;
      while i < |grant.bindings| && !found
        invariant 0 <= i <= |grant.bindings|
        invariant found ==> MetBy(r, grant.bindings)
        invariant !found ==> forall j | 0 <= j < i :: !(grant.bindings[j].kind == r.kind && Satisfies(r, grant.bindings[j].amount))
      {
        if grant.bindings[i].kind == r.kind && Satisfies(r, grant.bindings[i].amount) {
          found := true;
        }
        i := i + 1;
      }
    }

    /** The first REQUIRED entry the grant does not meet, if any. */
    method FirstUnsatisfiedRequired() returns (first: Option<Requirement>)
      ensures first.None? <==> forall i | 0 <= i < |reqs| && reqs[i].level.NEED_REQUIRED? :: MetBy(reqs[i], grant.bindings)
      ensures first.Some? ==>
                exists i | 0 <= i < |reqs| ::
                  && first.value == reqs[i] && reqs[i].level.NEED_REQUIRED? && !MetBy(reqs[i], grant.bindings)
                  && forall j | 0 <= j < i && reqs[j].level.NEED_REQUIRED? :: MetBy(reqs[j], grant.bindings)
    {
      var i := 0;
      while i < |reqs|
        invariant 0 <= i <= |reqs|
        invariant forall j | 0 <= j < i && reqs[j].level.NEED_REQUIRED? :: MetBy(reqs[j], grant.bindings)
      {
        if reqs[i].level.NEED_REQUIRED? {
          var found := IsMet(reqs[i]);
          if !found {
            return Some(reqs[i]);
          }
        }
        i := i + 1;
      }
      return None;
    }

    method IsSatisfied() returns (ok: bool)
      ensures ok <==> Satisfied(View())
    {
      if !grant.status.GRANT_GRANTED? || grant.released {
        return false;
      }
      var first := FirstUnsatisfiedRequired();
      if first.Some? {
        return false;
      }
      var i := 0;
      while i < |reqs|
        invariant 0 <= i <= |reqs|
        invariant forall j | 0 <= j < i && reqs[j].level.NEED_PROHIBITED? :: !ViolatedBy(reqs[j], grant.bindings)
      {
        if reqs[i].level.NEED_PROHIBITED? {
          var k := 0;
          while k < |grant.bindings|
            invariant 0 <= k <= |grant.bindings|
            invariant forall j | 0 <= j < k ::
                      !(grant.bindings[j].kind == reqs[i].kind && Positive(grant.bindings[j].amount))
          {
            if grant.bindings[k].kind == reqs[i].kind && Positive(grant.bindings[k].amount) {
              assert ViolatedBy(reqs[i], grant.bindings);
              return false;
            }
            k := k + 1;
          }
        }
        i := i + 1;
      }
      return true;
    }
  }

  /** The grant, not the contract generation, decides whether `r` spoils what the grant satisfies. */
  predicate Harmless(c: Contract, r: Requirement) {
    && (r.level.NEED_REQUIRED? ==> MetBy(r, c.grant.bindings))
    && (r.level.NEED_PROHIBITED? ==> !ViolatedBy(Normalized(r), c.grant.bindings))
  }

  /**
   * A grant made for an earlier generation goes on satisfying the contract after a requirement is added,
   * exactly when its bindings also meet the new entry - although its recorded generation is then stale.
   */
  lemma StaleGrantSatisfiesIff(c: Contract, r: Requirement)
    requires !HasKey(c.reqs, r)
    ensures Satisfied(WithRequirement(c, r)) <==> Satisfied(c) && Harmless(c, r)
    ensures c.grant.contractGeneration == c.generation ==> c.grant.contractGeneration != WithRequirement(c, r).generation
  {
    var d, n := WithRequirement(c, r), |c.reqs|;
    assert forall i | 0 <= i < n :: d.reqs[i] == c.reqs[i];
    assert d.reqs[n] == Normalized(r);
    hide HasKey, MetBy, ViolatedBy;
    if Satisfied(d) {
      forall i | 0 <= i < n && c.reqs[i].level.NEED_REQUIRED? ensures MetBy(c.reqs[i], c.grant.bindings) {
        assert d.reqs[i].level.NEED_REQUIRED?;
      }
      forall i | 0 <= i < n && c.reqs[i].level.NEED_PROHIBITED? ensures !ViolatedBy(c.reqs[i], c.grant.bindings) {
        assert d.reqs[i].level.NEED_PROHIBITED?;
      }
    }
  }

  /** Two requirements of a contract never share kind and descriptor. */
  predicate DistinctKeys(reqs: seq<Requirement>) {
    forall i, j | 0 <= i < j < |reqs| :: !SameKey(reqs[i], reqs[j])
  }

  function AddAll(c: Contract, rs: seq<Requirement>): Contract
    decreases |rs|
  {
    if rs == [] then c else AddAll(WithRequirement(c, rs[0]), rs[1..])
  }

  /** However often requirements are added, none is ever changed, dropped or given a second level. */
  lemma {:induction false} LevelsNeverChangeSilently(c: Contract, rs: seq<Requirement>)
    requires DistinctKeys(c.reqs)
    ensures var d := AddAll(c, rs);
            && DistinctKeys(d.reqs)
            && c.reqs <= d.reqs
            && (forall r | r in rs :: HasKey(d.reqs, r))
    decreases |rs|
  {
    if rs != [] {
      var d := WithRequirement(c, rs[0]);
      if !HasKey(c.reqs, rs[0]) {
        assert SameKey(d.reqs[|c.reqs|], rs[0]);
      }
      LevelsNeverChangeSilently(d, rs[1..]);
      var e := AddAll(d, rs[1..]);
      var i :| 0 <= i < |d.reqs| && SameKey(d.reqs[i], rs[0]);
      assert SameKey(e.reqs[i], rs[0]);
    }
  }

  // ---- The reference broker -----------------------------------------------

  predicate Mirrored(r: Requirement) {
    r.level.NEED_REQUIRED? && Positive(r.minValue)
  }

  function Mirror(reqs: seq<Requirement>): seq<Binding> {
    if reqs == [] then []
    else
      var last := reqs[|reqs| - 1];
      Mirror(reqs[..|reqs| - 1]) + if Mirrored(last) then [Binding(last.kind, last.minValue, Ascii("ref"))] else []
  }

  method RequestGrant(contract: ResourceContract) returns (g: Grant)
    ensures g == Grant(contract.id, contract.generation, GRANT_GRANTED, false, Mirror(contract.reqs))
  {
    var bindings: seq<Binding> := [];
    var i := 0;
    while i < |contract.reqs|
      invariant 0 <= i <= |contract.reqs|
      invariant bindings == Mirror(contract.reqs[..i])
    {
      var r := contract.reqs[i];
      assert contract.reqs[..i + 1][..i] == contract.reqs[..i];
      if r.level.NEED_REQUIRED? && Positive(r.minValue) {
        bindings := bindings + [Binding(r.kind, r.minValue, Ascii("ref"))];
      }
      i := i + 1;
    }
    assert contract.reqs[..i] == contract.reqs;
    g := Grant(contract.id, contract.generation, GRANT_GRANTED, false, bindings);
  }

  /** The broker binds exactly the positive minimum of each REQUIRED entry. */
  lemma {:induction false} MirrorMembers(reqs: seq<Requirement>, kind: ResourceKind, amount: F64)
    ensures (exists i | 0 <= i < |Mirror(reqs)| :: Mirror(reqs)[i].kind == kind && Mirror(reqs)[i].amount == amount)
            <==> (exists q | 0 <= q < |reqs| :: Mirrored(reqs[q]) && reqs[q].kind == kind && reqs[q].minValue == amount)
  {
    if reqs != [] {
      var n := |reqs| - 1;
      var init := reqs[..n];
      MirrorMembers(init, kind, amount);
      var m, full := Mirror(init), Mirror(reqs);
      assert forall i | 0 <= i < |m| :: full[i] == m[i];
      if exists q | 0 <= q < |reqs| :: Mirrored(reqs[q]) && reqs[q].kind == kind && reqs[q].minValue == amount {
        var q :| 0 <= q < |reqs| && Mirrored(reqs[q]) && reqs[q].kind == kind && reqs[q].minValue == amount;
        if q < n {
          assert init[q] == reqs[q];
          var i :| 0 <= i < |m| && m[i].kind == kind && m[i].amount == amount;
          assert full[i] == m[i];
        } else {
          assert full[|m|] == Binding(reqs[n].kind, reqs[n].minValue, Ascii("ref"));
        }
      }
      if exists i | 0 <= i < |full| :: full[i].kind == kind && full[i].amount == amount {
        var i :| 0 <= i < |full| && full[i].kind == kind && full[i].amount == amount;
        if i < |m| {
          assert m[i] == full[i];
          var q :| 0 <= q < n && Mirrored(init[q]) && init[q].kind == kind && init[q].minValue == amount;
          assert reqs[q] == init[q];
        }
      }
    }
  }

  /** Requirement `r` is met by the minimum that some REQUIRED entry of its kind asks for. */
  predicate MetByOwnMinimum(reqs: seq<Requirement>, r: Requirement) {
    exists q | 0 <= q < |reqs| :: Mirrored(reqs[q]) && reqs[q].kind == r.kind && Satisfies(r, reqs[q].minValue)
  }

  predicate ProhibitsOwnMinimum(reqs: seq<Requirement>, r: Requirement) {
    exists q | 0 <= q < |reqs| :: Mirrored(reqs[q]) && reqs[q].kind == r.kind
  }

  /** Exactly which contracts the reference broker's own grant satisfies. */
  lemma BrokerGrantSatisfiesIff(c: Contract)
    ensures Satisfied(WithGrant(c, Grant(c.id, c.generation, GRANT_GRANTED, false, Mirror(c.reqs)))) <==>
            && (forall i | 0 <= i < |c.reqs| && c.reqs[i].level.NEED_REQUIRED? :: MetByOwnMinimum(c.reqs, c.reqs[i]))
            && (forall i | 0 <= i < |c.reqs| && c.reqs[i].level.NEED_PROHIBITED? :: !ProhibitsOwnMinimum(c.reqs, c.reqs[i]))
  {
    forall r ensures MetBy(r, Mirror(c.reqs)) <==> MetByOwnMinimum(c.reqs, r) {
      MirrorMeets(c.reqs, r);
    }
    forall r ensures ViolatedBy(r, Mirror(c.reqs)) <==> ProhibitsOwnMinimum(c.reqs, r) {
      MirrorViolates(c.reqs, r);
    }
  }

  lemma MirrorMeets(reqs: seq<Requirement>, r: Requirement)
    ensures MetBy(r, Mirror(reqs)) <==> MetByOwnMinimum(reqs, r)
  {
    if MetBy(r, Mirror(reqs)) {
      var i :| 0 <= i < |Mirror(reqs)| && Mirror(reqs)[i].kind == r.kind && Satisfies(r, Mirror(reqs)[i].amount);
      MirrorMembers(reqs, r.kind, Mirror(reqs)[i].amount);
    }
    if MetByOwnMinimum(reqs, r) {
      var q :| 0 <= q < |reqs| && Mirrored(reqs[q]) && reqs[q].kind == r.kind && Satisfies(r, reqs[q].minValue);
      MirrorMembers(reqs, r.kind, reqs[q].minValue);
    }
  }

  lemma MirrorViolates(reqs: seq<Requirement>, r: Requirement)
    ensures ViolatedBy(r, Mirror(reqs)) <==> ProhibitsOwnMinimum(reqs, r)
  {
    if ViolatedBy(r, Mirror(reqs)) {
      var i :| 0 <= i < |Mirror(reqs)| && Mirror(reqs)[i].kind == r.kind && Positive(Mirror(reqs)[i].amount);
      MirrorMembers(reqs, r.kind, Mirror(reqs)[i].amount);
    }
    if ProhibitsOwnMinimum(reqs, r) {
      var q :| 0 <= q < |reqs| && Mirrored(reqs[q]) && reqs[q].kind == r.kind;
      MirrorMembers(reqs, r.kind, reqs[q].minValue);
    }
  }
}

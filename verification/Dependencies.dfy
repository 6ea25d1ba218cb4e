/** Dependency gating (src/dependencies.cpp). */
module Dependencies {
  import opened Basics
  import opened Vocabulary

  datatype DependencyDef = DependencyDef(
    dependsOn: u64, requirement: DependencyRequirement, readyWhen: DependencyReady, artifactKey: Bytes)

  datatype DependencyState = DependencyState(status: DependencyStatus, observed: u64, detail: Bytes)

  datatype Deps = Deps(id: u64, generation: u64, defs: seq<DependencyDef>, states: seq<DependencyState>)

  const FRESH_STATE: DependencyState := DependencyState(DEP_PENDING, 0, [])
  const NO_DEPS: Deps := Deps(0, 0, [], [])

  /** Every definition has its state: kept by all operations of the set. */
  predicate Paired(d: Deps) {
    |d.defs| == |d.states|
  }

  function Defined(d: Deps, def: DependencyDef): Deps {
    d.(defs := d.defs + [def], states := d.states + [FRESH_STATE], generation := Next(d.generation))
  }

  datatype Report = Report(index: nat, status: DependencyStatus, observed: u64)

  /** An older observation never overwrites a newer one. */
  function Reported(states: seq<DependencyState>, r: Report): seq<DependencyState> {
    if r.index >= |states| || r.observed < states[r.index].observed then states
    else states[r.index := states[r.index].(status := r.status, observed := r.observed)]
  }

  function ReportOutcome(states: seq<DependencyState>, r: Report): Outcome {
    if r.index >= |states| then REJECT_UNKNOWN_DEPENDENCY
    else if r.observed < states[r.index].observed then REJECT_STALE_DEPENDENCY
    else ALLOW
  }

  /** Definition `i` is required and not satisfied. */
  predicate Unmet(d: Deps, i: nat) {
    i < |d.defs| && d.defs[i].requirement.DEP_REQUIRED? && !(i < |d.states| && d.states[i].status.DEP_SATISFIED?)
  }

  predicate DepsReady(d: Deps) {
    forall i: nat | i < |d.defs| :: !Unmet(d, i)
  }

  class DependencySet {
    var id: u64
    var generation: u64
    var defs: seq<DependencyDef>
    var states: seq<DependencyState>

    function View(): Deps
      reads this
    {
      Deps(id, generation, defs, states)
    }

    constructor ()
      ensures View() == NO_DEPS
    {
      id, generation, defs, states := 0, 0, [], [];
    }

    constructor FromValue(d: Deps)
      ensures View() == d
    {
      id, generation, defs, states := d.id, d.generation, d.defs, d.states;
    }

    method Define(d: DependencyDef) returns (out: Outcome)
      modifies this
      ensures View() == Defined(old(View()), d)
      ensures out == ALLOW
    {
      defs := defs + [d];
      states := states + [FRESH_STATE];
      generation := Next(generation);
      return ALLOW;
    }

    method Clear() returns (out: Outcome)
      modifies this
      ensures View() == Deps(old(id), Next(old(generation)), [], [])
      ensures out == ALLOW
    {
      defs, states := [], [];
      generation := Next(generation);
      return ALLOW;
    }

    method SetStatus(index: nat, status: DependencyStatus, observed: u64) returns (out: Outcome)
      modifies this
      ensures View() == old(View()).(states := Reported(old(states), Report(index, status, observed)))
      ensures out == ReportOutcome(old(states), Report(index, status, observed))
    {
      if index >= |states| {
        return REJECT_UNKNOWN_DEPENDENCY;
      }
      if observed < states[index].observed {
        return REJECT_STALE_DEPENDENCY;
      }
      states := states[index := states[index].(status := status)];
      states := states[index := states[index].(observed := observed)];
      return ALLOW;
    }

    /** The first required dependency not satisfied, if any. */
    method FirstUnmetRequired() returns (first: Option<nat>)
      requires Paired(View())
      ensures first.None? <==> DepsReady(View())
      ensures first.Some? ==> first.value < |defs| && Unmet(View(), first.value)
                              && forall j: nat | j < first.value :: !Unmet(View(), j)
    {
      var i: nat := 0;
      while i < |defs|
        invariant i <= |defs|
        invariant forall j: nat | j < i :: !Unmet(View(), j)
      {
        if defs[i].requirement.DEP_REQUIRED? && !states[i].status.DEP_SATISFIED? {
          assert Unmet(View(), i);
          return Some(i);
        }
        i := i + 1;
      }
      return None;
    }

    method Ready() returns (ready: bool)
      requires Paired(View())
      ensures ready <==> DepsReady(View())
    {
      var i: nat := 0;
      while i < |defs|
        invariant i <= |defs|
        invariant forall j: nat | j < i :: !Unmet(View(), j)
      {
        if defs[i].requirement.DEP_REQUIRED? && !states[i].status.DEP_SATISFIED? {
          assert Unmet(View(), i);
          return false;
        }
        i := i + 1;
      }
      return true;
    }
  }

  // ---- Delivery order does not matter -------------------------------------

  function FoldReports(states: seq<DependencyState>, rs: seq<Report>): seq<DependencyState>
    decreases |rs|
  {
    if rs == [] then states else FoldReports(Reported(states, rs[0]), rs[1..])
  }

  /** Two reports whose effects can be delivered in either order. */
  predicate Independent(a: Report, b: Report) {
    a.index != b.index || a.observed != b.observed || a.status == b.status
  }

  /** Independence is exactly commutation, whatever the number of dependencies. */
  lemma IndependentIffCommute(a: Report, b: Report)
    ensures Independent(a, b) <==>
            forall states :: FoldReports(states, [a, b]) == FoldReports(states, [b, a])
  {
    if Independent(a, b) {
      forall states ensures FoldReports(states, [a, b]) == FoldReports(states, [b, a]) {
        SwapFirstTwo(states, a, b, []);
        assert [a] + [b] + [] == [a, b] && [b] + [a] + [] == [b, a];
      }
    } else {
      var states := seq(a.index + 1, _ => FRESH_STATE);
      FoldPair(states, a, b);
      FoldPair(states, b, a);
      assert FoldReports(states, [a, b])[a.index].status == b.status;
      assert FoldReports(states, [b, a])[a.index].status == a.status;
    }
  }

  lemma FoldPair(states: seq<DependencyState>, a: Report, b: Report)
    ensures FoldReports(states, [a, b]) == Reported(Reported(states, a), b)
  {
    assert [a, b][1..] == [b];
    assert FoldReports(Reported(states, a), [b]) == FoldReports(Reported(Reported(states, a), b), []);
  }

  lemma SwapFirstTwo(states: seq<DependencyState>, a: Report, b: Report, rest: seq<Report>)
    requires Independent(a, b)
    ensures FoldReports(states, [a] + [b] + rest) == FoldReports(states, [b] + [a] + rest)
  {
    assert ([a] + [b] + rest)[1..] == [b] + rest && ([b] + rest)[1..] == rest;
    assert ([b] + [a] + rest)[1..] == [a] + rest && ([a] + rest)[1..] == rest;
    var ab, ba := Reported(Reported(states, a), b), Reported(Reported(states, b), a);
    assert |ab| == |ba| == |states|;
    assert forall i | 0 <= i < |states| :: ab[i] == ba[i];
    assert ab == ba;
  }

  ghost predicate PairwiseIndependent(rs: multiset<Report>) {
    forall a, b | a in rs && b in rs :: Independent(a, b)
  }

  /** The same reports with the k-th in second, then in first place. */
  lemma Fronted(rs: seq<Report>, k: nat)
    requires 0 < k < |rs|
    ensures var tail := rs[1..];
            var rest := tail[..k - 1] + tail[k..];
            && [tail[k - 1]] + tail[..k - 1] + tail[k..] == [rs[k]] + rest
            && ([rs[0]] + [rs[k]] + rest)[1..] == [rs[k]] + rest
            && [rs[k]] + [rs[0]] + rest == [rs[k]] + rs[..k] + rs[k + 1..]
  {
  }

  /** A report found anywhere in the sequence may be delivered first. */
  lemma {:induction false} BringToFront(states: seq<DependencyState>, rs: seq<Report>, k: nat)
    requires k < |rs|
    requires PairwiseIndependent(multiset(rs))
    ensures FoldReports(states, rs) == FoldReports(states, [rs[k]] + rs[..k] + rs[k + 1..])
    decreases k
  {
    hide Independent, Reported;
    if k == 0 {
      assert [rs[0]] + rs[..0] + rs[1..] == rs;
    } else {
      var tail := rs[1..];
      var rest := tail[..k - 1] + tail[k..];
      assert rs == [rs[0]] + tail;
      assert rs[0] in multiset(rs) && rs[k] in multiset(rs);
      BringToFront(Reported(states, rs[0]), tail, k - 1);
      Fronted(rs, k);
      SwapFirstTwo(states, rs[0], rs[k], rest);
    }
  }

  lemma TakeOut(rs: seq<Report>, qs: seq<Report>, k: nat)
    requires rs != [] && k < |qs| && qs[k] == rs[0]
    requires multiset(rs) == multiset(qs)
    requires PairwiseIndependent(multiset(rs))
    ensures multiset(rs[1..]) == multiset(qs[..k] + qs[k + 1..])
    ensures PairwiseIndependent(multiset(rs[1..]))
  {
    assert rs == [rs[0]] + rs[1..];
    assert multiset(rs) == multiset{rs[0]} + multiset(rs[1..]);
    assert qs == qs[..k] + [qs[k]] + qs[k + 1..];
    assert multiset(qs) == multiset(qs[..k]) + multiset{qs[k]} + multiset(qs[k + 1..]);
    assert multiset(qs[..k] + qs[k + 1..]) == multiset(qs[..k]) + multiset(qs[k + 1..]);
    assert multiset(rs[1..]) == multiset(rs) - multiset{rs[0]};
  }

  /** Any two delivery orders of the same reports end in the same states. */
  lemma {:induction false} DeliveryOrderIndependent(states: seq<DependencyState>, rs: seq<Report>, qs: seq<Report>)
    requires multiset(rs) == multiset(qs)
    requires PairwiseIndependent(multiset(rs))
    ensures FoldReports(states, rs) == FoldReports(states, qs)
    decreases |rs|
  {
    if rs == [] {
      assert |multiset(qs)| == 0;
    } else {
      assert rs[0] in multiset(qs);
      var k: nat :| k < |qs| && qs[k] == rs[0];
      var rest := qs[..k] + qs[k + 1..];
      TakeOut(rs, qs, k);
      DeliveryOrderIndependent(Reported(states, rs[0]), rs[1..], rest);
      assert [qs[k]] + qs[..k] + qs[k + 1..] == [qs[k]] + rest && ([qs[k]] + rest)[1..] == rest;
      BringToFront(states, qs, k);
    }
  }

  /** The state of dependency `i` after any reports: the newest one not older than what was known. */
  lemma {:induction false} GreatestGenerationWins(states: seq<DependencyState>, rs: seq<Report>, i: nat)
    requires i < |states|
    ensures |FoldReports(states, rs)| == |states|
    ensures var s := FoldReports(states, rs)[i];
            && s.observed >= states[i].observed
            && (forall r | r in rs && r.index == i :: r.observed <= s.observed)
            && (s == states[i] || Report(i, s.status, s.observed) in rs)
    decreases |rs|
  {
    if rs != [] {
      var next := Reported(states, rs[0]);
      GreatestGenerationWins(next, rs[1..], i);
    }
  }
}

/** Workload progress counters (src/progress.cpp). */
module ProgressModel {
  import opened Basics
  import opened Vocabulary

  datatype Progress = Progress(
    completed: u64,
    totalKind: TotalKind,
    total: u64,
    checkpointed: u64,
    provenance: Provenance,
    lastAuthoritativeGeneration: u64,
    monotonic: bool)

  const NO_PROGRESS: Progress := Progress(0, TOTAL_UNKNOWN, 0, 0, DURABLE_KNOWN, 0, true)

  predicate Complete(p: Progress) {
    p.totalKind.TOTAL_KNOWN? && p.completed >= p.total
  }

  /** The counters after `delta` more units, None when the count would wrap. */
  function Advanced(p: Progress, delta: u64, durable: bool): Option<Progress> {
    if TWO64 - 1 - p.completed < delta then None
    else
      var completed: u64 := p.completed + delta;
      Some(p.(completed := completed,
              checkpointed := if durable then completed else p.checkpointed,
              provenance := if durable then DURABLE_KNOWN else p.provenance,
              lastAuthoritativeGeneration := Next(p.lastAuthoritativeGeneration)))
  }

  /** The counters after recovering an absolute value, None when that would regress. */
  function Reconciled(p: Progress, recovered: u64, durable: bool, provenance: Provenance): Option<Progress> {
    if p.monotonic && recovered < p.completed then None
    else
      Some(p.(completed := recovered,
              provenance := provenance,
              checkpointed := if durable then recovered else p.checkpointed,
              lastAuthoritativeGeneration := Next(p.lastAuthoritativeGeneration)))
  }

  // ---- What recovery and progress keep -------------------------------------

  /**
   * Exactly when recovering a value keeps the checkpoint within the count: when the value is durable, or is
   * not below the checkpoint. Monotonic counters accept no other value.
   */
  lemma ReconcileKeepsCheckpointIff(p: Progress, recovered: u64, durable: bool, provenance: Provenance)
    requires p.checkpointed <= p.completed && Reconciled(p, recovered, durable, provenance).Some?
    ensures var q := Reconciled(p, recovered, durable, provenance).value;
            && (q.checkpointed <= q.completed <==> durable || p.checkpointed <= recovered)
            && (p.monotonic ==> p.completed <= q.completed && q.checkpointed <= q.completed)
            && q.completed == recovered && q.provenance == provenance
            && (if durable then q.checkpointed == q.completed else q.checkpointed == p.checkpointed)
  {
  }

  /** Without monotonicity a recovered value can fall below the checkpoint. */
  lemma RecoveryBelowCheckpoint()
    ensures var p := NO_PROGRESS.(completed := 5, checkpointed := 5, monotonic := false);
            Reconciled(p, 3, false, ESTIMATED) == Some(p.(completed := 3, provenance := ESTIMATED, lastAuthoritativeGeneration := 1))
  {
  }

  datatype Update =
    | Advancing(delta: u64, durable: bool)
    | Recovering(recovered: u64, durable: bool, provenance: Provenance)

  /** A refused update changes nothing. */
  function Updated(p: Progress, u: Update): Progress {
    var q := match u
      case Advancing(delta, durable) => Advanced(p, delta, durable)
      case Recovering(recovered, durable, provenance) => Reconciled(p, recovered, durable, provenance);
    if q.Some? then q.value else p
  }

  function AllUpdated(p: Progress, us: seq<Update>): Progress {
    if us == [] then p else Updated(AllUpdated(p, us[..|us| - 1]), us[|us| - 1])
  }

  /** Over any mix of progress and recovery, monotonic counters never fall and never checkpoint more than they completed. */
  lemma {:induction false} MonotonicNeverFalls(p: Progress, us: seq<Update>)
    requires p.monotonic && p.checkpointed <= p.completed
    ensures var q := AllUpdated(p, us); q.monotonic && p.completed <= q.completed && q.checkpointed <= q.completed
    ensures var q := AllUpdated(p, us); q.totalKind == p.totalKind && q.total == p.total
  {
    if us != [] {
      MonotonicNeverFalls(p, us[..|us| - 1]);
    }
  }

  /** The mutable counters of one workload or episode. */
  class ProgressCounters {
    var value: Progress

    constructor (p: Progress)
      ensures value == p
    {
      value := p;
    }

    method Advance(delta: u64, durable: bool) returns (ok: bool)
      modifies this
      ensures ok == Advanced(old(value), delta, durable).Some?
      ensures value == if ok then Advanced(old(value), delta, durable).value else old(value)
    {
      if TWO64 - 1 - value.completed < delta {
        return false;
      }
      value := value.(completed := value.completed + delta);
      if durable {
        value := value.(checkpointed := value.completed, provenance := DURABLE_KNOWN);
      }
      value := value.(lastAuthoritativeGeneration := Next(value.lastAuthoritativeGeneration));
      return true;
    }

    method Reconcile(recovered: u64, durable: bool, provenance: Provenance) returns (ok: bool)
      modifies this
      ensures ok == Reconciled(old(value), recovered, durable, provenance).Some?
      ensures value == if ok then Reconciled(old(value), recovered, durable, provenance).value else old(value)
    {
      if value.monotonic && recovered < value.completed {
        return false;
      }
      value := value.(completed := recovered, provenance := provenance);
      if durable {
        value := value.(checkpointed := recovered);
      }
      value := value.(lastAuthoritativeGeneration := Next(value.lastAuthoritativeGeneration));
      return true;
    }
  }
}

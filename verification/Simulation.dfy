/** The store follows the engine: what a saved record and the live workload always agree on. */
module Simulation {
  import opened Basics
  import opened Vocabulary
  import opened Dependencies
  import opened Model
  import opened Lifecycle
  import opened Runs
  import opened Codec
  import opened CodecLaws
  import opened Records
  import opened Store
  import opened Engine

  predicate SameButCompleted(a: Episode, b: Episode) {
    b == a.(completed := b.completed)
  }

  predicate SameEpisodes(es: seq<Episode>, fs: seq<Episode>) {
    |es| == |fs| && forall i | 0 <= i < |es| :: SameButCompleted(es[i], fs[i])
  }

  /**
   * `live` can be ahead of `saved` only in its log and revision, its cancellation flags, its restart,
   * migration and completion bookkeeping, and episodes' completed flags.
   */
  predicate Agrees(saved: Workload, live: Workload) {
    && live == saved.(history := live.history, revision := live.revision, cancel := live.cancel, restarts := live.restarts,
                      migrations := live.migrations, completionGen := live.completionGen, episodes := live.episodes)
    && SameEpisodes(saved.episodes, live.episodes)
  }

  lemma AgreesChains(a: Workload, b: Workload, c: Workload)
    requires Agrees(a, b) && Agrees(b, c)
    ensures Agrees(a, c)
  {
    forall i | 0 <= i < |a.episodes| ensures SameButCompleted(a.episodes[i], c.episodes[i]) {
      assert SameButCompleted(a.episodes[i], b.episodes[i]);
    }
  }

  lemma AgreesWithItself(w: Workload)
    ensures Agrees(w, w)
    ensures Agrees(w, w.(episodes := WithCurrentCompleted(w.episodes)))
  {
  }

  lemma RejectedEpisodeCallAgrees(w: Workload, op: Op, minted: u64)
    requires TouchesEpisodes(op) && !op.OpCommitCompletion?
    ensures !Apply(w, op, minted).out.ALLOW? ==> SameButLog(Apply(w, op, minted).w, w)
  {
    hide Guarded, TransitionOutcome, IsTerminal, StartEpisode, CompleteSuspend, CommitMigration;
    GuardedFrame();
    EpisodeEdges();
    CompoundCalls();
  }

  lemma RejectedControlCallAgrees(w: Workload, op: Op, minted: u64)
    requires !TouchesEpisodes(op)
    ensures !Apply(w, op, minted).out.ALLOW? ==>
              var v := Apply(w, op, minted).w;
              v == w.(history := v.history, revision := v.revision, cancel := v.cancel, restarts := v.restarts, migrations := v.migrations)
  {
    hide Guarded, TransitionOutcome, Gate, CancelsFrom, IsTerminal, CompleteCancellation;
    GuardedFrame();
    CompoundCalls();
  }

  lemma RejectedCommitAgrees(w: Workload, expecting: u64)
    ensures !CommitCompletion(w, expecting).out.ALLOW? ==> Agrees(w, CommitCompletion(w, expecting).w)
  {
    hide CommitCompletion, WithCurrentCompleted, SameEpisodes, CompletionEvidence;
    CommitAllOrNothing(w, expecting);
    AgreesWithItself(w);
  }

  /** A refused call can run ahead of the record only in bookkeeping. */
  lemma RejectedCallsAgree(w: Workload, c: Call)
    ensures !Made(w, c).out.ALLOW? ==> Agrees(w, Made(w, c).w)
  {
    hide Apply, SameEpisodes;
    AgreesWithItself(w);
    if c.op.OpCommitCompletion? {
      RejectedCommit(w, c);
    } else if TouchesEpisodes(c.op) {
      RejectedEpisodeCallAgrees(w, c.op, c.minted);
    } else {
      RejectedControlCallAgrees(w, c.op, c.minted);
    }
  }

  lemma RejectedCommit(w: Workload, c: Call)
    requires c.op.OpCommitCompletion?
    ensures !Made(w, c).out.ALLOW? ==> Agrees(w, Made(w, c).w)
  {
    hide CommitCompletion, Agrees;
    RejectedCommitAgrees(w, c.op.expecting);
  }

  // ---- What no call changes ------------------------------------------------

  predicate SameIdentity(w: Workload, v: Workload) {
    v.ident == w.ident && (Paired(w.deps) ==> Paired(v.deps))
  }

  lemma EpisodeCallKeepsIdentity(w: Workload, op: Op, minted: u64)
    requires TouchesEpisodes(op)
    ensures SameIdentity(w, Apply(w, op, minted).w)
  {
    hide Guarded, TransitionOutcome, StartEpisode, CommitMigration, CommitCompletion, CompleteSuspend;
    hide CompletionEvidence, FindEpisode, CurrentEpisode;
    GuardedFrame();
    CompoundCalls();
  }

  lemma ControlKeepsIdentity(w: Workload, op: Op, minted: u64)
    requires !TouchesEpisodes(op)
    ensures SameIdentity(w, Apply(w, op, minted).w)
  {
    hide Guarded, TransitionOutcome, Gate, CancelsFrom, IsTerminal, CompleteCancellation, CurrentEpisode;
    GuardedFrame();
    CompoundCalls();
  }

  lemma StepKeepsIdentity(w: Workload, c: Call)
    ensures SameIdentity(w, Made(w, c).w)
  {
    hide Apply, SameIdentity;
    if TouchesEpisodes(c.op) {
      EpisodeCallKeepsIdentity(w, c.op, c.minted);
    } else {
      ControlKeepsIdentity(w, c.op, c.minted);
    }
  }

  // ---- The simulation ------------------------------------------------------

  /** The workload as it was when it was last saved. */
  function LastSaved(e: EngineState, calls: seq<EngineCall>, id: u64): Option<Workload>
    decreases |calls|
  {
    if calls == [] then None
    else
      var c, after := calls[|calls| - 1], Perform(EngineRun(e, calls[..|calls| - 1]), calls[|calls| - 1]);
      if c.id == id && after.r.outcome.ALLOW? then Some(after.e.workloads[id]) else LastSaved(e, calls[..|calls| - 1], id)
  }

  /** The store holds the record of `saved`, and the live workload agrees with it. */
  predicate Tracks(e: EngineState, id: u64, saved: Option<Workload>) {
    if id in e.workloads
    then
      && saved.Some? && e.shelf.Some? && Lookup(e.shelf.value, id) == Some(EncodeRecord(saved.value))
      && Agrees(saved.value, e.workloads[id])
      && e.workloads[id].ident.id == id && Paired(e.workloads[id].deps)
    else saved.None?
  }

  lemma CallTracks(e: EngineState, c: EngineCall, id: u64, saved: Option<Workload>)
    requires e.shelf.Some? && Tracks(e, id, saved) && (c.id in e.workloads ==> e.workloads[c.id].ident.id == c.id)
    ensures var after := Perform(e, c);
            Tracks(after.e, id, if c.id == id && after.r.outcome.ALLOW? then Some(after.e.workloads[id]) else saved)
  {
    hide Apply, EncodeRecord, Agrees, Lookup, Saved;
    if c.On? && c.id in e.workloads {
      var call := Call(c.op, e.counter);
      var w, s := e.workloads[c.id], Made(e.workloads[c.id], call);
      StepKeepsIdentity(w, call);
      RejectedCallsAgree(w, call);
      AgreesWithItself(s.w);
      SavedLookup(e.shelf.value, c.id, EncodeRecord(s.w), id);
      if id == c.id && !s.out.ALLOW? {
        AgreesChains(saved.value, w, s.w);
      }
    } else if c.Register? && c.id !in e.workloads {
      var w := Created(c.id, c.name, c.intent, c.policy);
      AgreesWithItself(w);
      SavedLookup(e.shelf.value, c.id, EncodeRecord(w), id);
    }
  }

  /**
   * After any engine run, for every workload, the store holds the record made at its last allowed call,
   * and the live workload is ahead of that record in bookkeeping only.
   */
  lemma {:induction false} StoreTracksEngine(calls: seq<EngineCall>, id: u64)
    ensures Tracks(EngineRun(Started(true), calls), id, LastSaved(Started(true), calls, id))
    ensures EngineRun(Started(true), calls).shelf.Some?
    decreases |calls|
  {
    hide Tracks, Perform;
    if calls == [] {
      NothingTracked(id);
    } else {
      var init, c := calls[..|calls| - 1], calls[|calls| - 1];
      StoreTracksEngine(init, id);
      StoreTracksEngine(init, c.id);
      TrackedId(EngineRun(Started(true), init), c.id, LastSaved(Started(true), init, c.id));
      CallTracks(EngineRun(Started(true), init), c, id, LastSaved(Started(true), init, id));
    }
  }

  lemma NothingTracked(id: u64)
    ensures Tracks(Started(true), id, None)
  {
  }

  lemma TrackedId(e: EngineState, id: u64, saved: Option<Workload>)
    requires Tracks(e, id, saved)
    ensures id in e.workloads ==> e.workloads[id].ident.id == id
  {
  }

  // ---- What a load gives back ----------------------------------------------

  /**
   * Right after an allowed call, loading gives exactly the live workload's persisted fields - if and only
   * if the workload is loadable: the engine accepts an id of 0 and non-finite amounts, decode does not.
   */
  lemma LoadAfterAllowIff(calls: seq<EngineCall>, c: EngineCall)
    requires var after := Perform(EngineRun(Started(true), calls), c);
             after.r.outcome.ALLOW? && Encodable(after.e.workloads[c.id])
    ensures var e := Perform(EngineRun(Started(true), calls), c).e;
            && e.shelf.Some?
            && (LoadedFrom(e.shelf.value, c.id) == Decoded(ALLOW, Some(Persisted(e.workloads[c.id]))) <==> Loadable(e.workloads[c.id]))
  {
    hide Perform, Encodable, Loadable, Agrees, EncodeRecord, DecodeRecord, Lookup, Persisted;
    assert (calls + [c])[..|calls|] == calls;
    StoreTracksEngine(calls + [c], c.id);
    RecordRoundTripIff(EngineRun(Started(true), calls + [c]).workloads[c.id]);
  }

  /** At any moment, what loads agrees with the live workload in everything but bookkeeping. */
  lemma LoadAlwaysAgrees(calls: seq<EngineCall>, id: u64)
    requires id in EngineRun(Started(true), calls).workloads
    requires LastSaved(Started(true), calls, id).Some? ==>
               Encodable(LastSaved(Started(true), calls, id).value) && Loadable(LastSaved(Started(true), calls, id).value)
    ensures var e := EngineRun(Started(true), calls);
            && e.shelf.Some?
            && var d := LoadedFrom(e.shelf.value, id);
               d.Decoded? && d.workload.Some? && Agrees(d.workload.value, e.workloads[id])
  {
    hide EngineRun, LastSaved, Encodable, Loadable, EncodeRecord, DecodeRecord, Lookup, SameEpisodes;
    StoreTracksEngine(calls, id);
    RecordRoundTripIff(LastSaved(Started(true), calls, id).value);
  }
}

/** The check a caller makes before a dispatch is exact: without it, units are skipped. */
module OutOfOrder {
  import opened Basics
  import opened Vocabulary
  import opened ProgressModel
  import opened Dependencies
  import opened Model
  import opened Lifecycle
  import opened Runs
  import opened Guarantees
  import opened RestartLimit
  import opened Identities
  import opened Protocol
  import opened Worker
  import opened Sessions
  import opened Increments
  import opened ExactlyOnce

  /** Stream `k` belongs to the last episode, which the workload listens to. */
  predicate Playing(s: System, k: nat) {
    && Inv(s.w) && WithinTotal(s.w.progress) && k < |s.streams| && s.w.episodes != [] && !Deaf(s.w)
    && s.streams[k].episode == |s.w.episodes| - 1 && Speaking(s.streams[k], s.w.episodes[|s.w.episodes| - 1].id)
    && AllPositive(s.streams[k].steps) && Total(s.streams[k].steps) < TWO64
  }

  function TallyOf(s: System): Tally {
    Tally(s.w.progress.completed, s.counted)
  }

  predicate SameTotal(s: System, t: System) {
    t.w.progress.totalKind == s.w.progress.totalKind && t.w.progress.total == s.w.progress.total
  }

  lemma InPlay(s: System, k: nat)
    requires Playing(s, k)
    ensures k < |s.streams|
  {
  }

  lemma HeardStays(w: Workload, c: Call)
    requires Inv(w) && w.episodes != [] && !Deaf(w) && c.op.OpProgress?
    ensures !Deaf(Made(w, c).w)
  {
    hide Inv, MayReport, ReportProgress, IsTerminal, IsCancelling;
    ReportIs(w, c);
    StepKeepsInv(w, c);
    ReportKeepsCast(w, c.op.episode, c.op.episodeGen, c.op.delta, c.op.durable);
    ReportKeepsOpen(w, c.op.episode, c.op.episodeGen, c.op.delta, c.op.durable);
    var v, n := Made(w, c).w, |w.episodes| - 1;
    hide Made;
    WhoMayReportIff(w, w.episodes[n].id, 1);
    WhoMayReportIff(v, v.episodes[n].id, 1);
  }

  lemma ReportKeepsOpen(w: Workload, episode: u64, episodeGen: u64, delta: u64, durable: bool)
    ensures var v := ReportProgress(w, episode, episodeGen, delta, durable).w; v.state == w.state && v.cancel == w.cancel
  {
    hide IsTerminal, IsCancelling, FindEpisode;
  }

  lemma PlayingFrame(s: System, k: nat)
    requires Playing(s, k) && s.streams[k].steps != []
    ensures var st := s.streams[k];
            && st.frames != [] && Pending(s, k)
            && var m := Decoded(st.frames[0]);
               && m.Some? && m.value.kind.PROGRESS? && m.value.value == st.steps[0]
               && Passed(m.value) == Call(OpProgress(s.w.episodes[st.episode].id, 1, m.value.value, true), 0)
  {
    hide Inv, Deaf, Decoded, Total;
    assert Reports(s.streams[k].frames[0], s.streams[k].dispatch, s.streams[k].steps[0]);
  }

  /** One increment, delivered: counted when it fits, skipped when it does not. */
  lemma PlayOne(s: System, k: nat)
    requires Playing(s, k) && s.streams[k].steps != []
    ensures var st, t, limit := s.streams[k], After(s, Deliver(k)), Limit(s.w.progress);
            && |t.streams| == |s.streams| && t.streams[k].steps == st.steps[1..]
            && t.streams[k].start + t.streams[k].consumed == st.start + st.consumed + st.steps[0]
            && Limit(t.w.progress) == limit && SameTotal(s, t) && t.w.policy == s.w.policy
            && TallyOf(t) == (if s.w.progress.completed + st.steps[0] <= limit
                              then Tally(s.w.progress.completed + st.steps[0], s.counted + Units(st.start + st.consumed, st.steps[0]))
                              else TallyOf(s))
    ensures Playing(After(s, Deliver(k)), k)
  {
    hide Inv, MayReport, Made, Decoded, Carries;
    var st := s.streams[k];
    PlayingFrame(s, k);
    var c := Passed(Decoded(st.frames[0]).value);
    ReportIs(s.w, c);
    ReportDoes(s, k, c.op.delta);
    StepKeepsInv(s.w, c);
    HeardStays(s.w, c);
    PolicyFrame(s.w, c);
    CarriesTail(st.frames, st.dispatch, st.steps);
    CarriedNotEmpty(st.frames[1..], st.dispatch, st.steps[1..]);
    assert forall i | 0 <= i < |st.steps| - 1 :: st.steps[1..][i] == st.steps[i + 1];
    hide ReportProgress;
  }

  function Deliveries(k: nat, n: nat): seq<Event> {
    if n == 0 then [] else [Deliver(k)] + Deliveries(k, n - 1)
  }

  lemma {:induction false} RunFromFront(s: System, e: Event, events: seq<Event>)
    ensures SystemRun(s, [e] + events) == SystemRun(After(s, e), events)
    decreases |events|
  {
    hide After;
    if events == [] {
      assert [e] + events == [e] && [e][..0] == [];
      assert SystemRun(s, [e]) == After(SystemRun(s, []), e);
    } else {
      var n := |events| - 1;
      assert ([e] + events)[..n + 1] == [e] + events[..n];
      RunFromFront(s, e, events[..n]);
    }
  }

  /** All increments of a stream, delivered one after the other. */
  lemma {:induction false} PlayAll(s: System, k: nat)
    requires Playing(s, k)
    ensures var st, t := s.streams[k], SystemRun(s, Deliveries(k, |s.streams[k].steps|));
            TallyOf(t) == Tallied(TallyOf(s), st.start + st.consumed, st.steps, Limit(s.w.progress))
            && SameTotal(s, t) && t.w.policy == s.w.policy
    decreases |s.streams[k].steps|
  {
    hide Playing, After, Limit;
    InPlay(s, k);
    var st := s.streams[k];
    if st.steps != [] {
      PlayOne(s, k);
      PlayAll(After(s, Deliver(k)), k);
      RunFromFront(s, Deliver(k), Deliveries(k, |st.steps| - 1));
    }
  }

  // ---- One dispatch, delivered whole ---------------------------------------

  lemma DispatchPlays(s: System, e: Event)
    requires Inv(s.w) && WithinTotal(s.w.progress) && s.w.episodes != [] && !Deaf(s.w)
    requires e.DispatchLast? && MayDispatch(s, e.total, e.chunk)
    ensures var t, k := After(s, e), |s.streams|;
            && t.w == s.w && t.counted == s.counted && Playing(t, k)
            && t.streams[k].start + t.streams[k].consumed == s.w.progress.completed
            && t.streams[k].steps == Steps(e.total - s.w.progress.completed, e.chunk)
  {
    hide Inv, Deaf, Carries, DispatchFrames;
    var d, n := Resuming(s.w.progress, e.total, e.chunk), |s.w.episodes| - 1;
    var m := DispatchMessage(s.w, s.w.episodes[n].id);
    DispatchCarries(m, d, e.runner, e.worker, e.boot);
    StepsAddUp(e.total - d.resumeFrom, e.chunk);
    CarriedNotEmpty(DispatchFrames(m, d, e.runner, e.worker, e.boot), m, Steps(e.total - d.resumeFrom, e.chunk));
    hide Steps;
  }

  /** The dispatch and the delivery of all its increments, with nothing in between. */
  function Whole(s: System, e: Event): seq<Event>
    requires e.DispatchLast? && MayDispatch(s, e.total, e.chunk)
  {
    [e] + Deliveries(|s.streams|, |Steps(e.total - s.w.progress.completed, e.chunk)|)
  }

  lemma WholeTally(s: System, e: Event)
    requires Inv(s.w) && WithinTotal(s.w.progress) && !Deaf(s.w)
    requires e.DispatchLast? && MayDispatch(s, e.total, e.chunk)
    ensures var t, steps := SystemRun(s, Whole(s, e)), Steps(e.total - s.w.progress.completed, e.chunk);
            && TallyOf(t) == Tallied(TallyOf(s), s.w.progress.completed, steps, Limit(s.w.progress))
            && SameTotal(s, t) && t.w.policy == s.w.policy
  {
    hide Inv, Deaf, After, Playing, SystemRun, Limit;
    DispatchPlays(s, e);
    InPlay(After(s, e), |s.streams|);
    PlayAll(After(s, e), |s.streams|);
    RunFromFront(s, e, Deliveries(|s.streams|, |Steps(e.total - s.w.progress.completed, e.chunk)|));
  }

  /**
   * The check is exact: a dispatch whose frames are all delivered to a listening workload keeps the count in
   * order if and only if it is orderly - so each dispatch that fails the check skips a unit and counts past it.
   */
  lemma CountsInOrderIffOrderly(s: System, e: Event)
    requires Inv(s.w) && WithinTotal(s.w.progress) && CountsUp(s.counted, s.w.progress.completed) && !Deaf(s.w)
    requires e.DispatchLast? && MayDispatch(s, e.total, e.chunk)
    ensures var t := SystemRun(s, Whole(s, e));
            CountsUp(t.counted, t.w.progress.completed) <==> OrderlyDispatch(s.w.progress, Resuming(s.w.progress, e.total, e.chunk))
  {
    hide Inv, Deaf, SystemRun, Tallied, StopsForGood, InOrder, CountsUp;
    var p := s.w.progress;
    var n := e.total - p.completed;
    WholeTally(s, e);
    StepsAddUp(n, e.chunk);
    WithinLimit(p);
    TalliedInOrderIff(TallyOf(s), Steps(n, e.chunk), Limit(p));
    InOrderIff(n, e.chunk, Room(p));
    hide Steps;
  }

  lemma WithinLimit(p: Progress)
    requires WithinTotal(p)
    ensures p.completed <= Limit(p) && Room(p) == Limit(p) - p.completed
  {
  }

  // ---- A skipped unit ------------------------------------------------------

  const PREPARE: seq<Event> := [Control(GET_READY[0]), Control(GET_READY[1]), Control(GET_READY[2]),
                                Control(Call(OpStartEpisode(1, 1), 1000))]

  lemma ListeningAfterStart(w: Workload)
    requires Inv(w) && w.state.READY? && w.episodes == [] && !w.cancel.finished
    ensures var v := Made(w, Call(OpStartEpisode(1, 1), 1000)).w;
            && Inv(v) && |v.episodes| == 1 && !Deaf(v) && v.progress == w.progress && v.policy == w.policy
  {
    hide Inv, StartEpisode, MayReport;
    StepKeepsInv(w, Call(OpStartEpisode(1, 1), 1000));
    StartAllOrNothing(w, 1000, 1, 1);
    var v := Made(w, Call(OpStartEpisode(1, 1), 1000)).w;
    WhoMayReportIff(v, v.episodes[0].id, 1);
  }

  lemma RunFour(s: System, a: Call, b: Call, c: Call, d: Call)
    requires Controls(a) && Controls(b) && Controls(c) && Controls(d)
    ensures SystemRun(s, [Control(a), Control(b), Control(c), Control(d)]) ==
            s.(w := Made(Made(Made(Made(s.w, a).w, b).w, c).w, d).w)
  {
    hide Made;
    var es := [Control(a), Control(b), Control(c), Control(d)];
    assert es[..3][..2] == es[..2] && es[..2][..1] == es[..1] && es[..1][..0] == [];
    assert SystemRun(s, es[..1]) == After(s, es[0]);
    assert SystemRun(s, es[..2]) == After(SystemRun(s, es[..1]), es[1]);
    assert SystemRun(s, es[..3]) == After(SystemRun(s, es[..2]), es[2]);
  }

  lemma ControlKeepsProgress(w: Workload, c: Call)
    requires Controls(c)
    ensures Made(w, c).w.progress == w.progress
  {
    hide Apply;
    ControlKeepsTotal(w, c.op, c.minted);
  }

  lemma GettingReadyKeeps(w: Workload)
    ensures Run(w, GET_READY).progress == w.progress && Run(w, GET_READY).policy == w.policy
  {
    hide Made;
    NoSetPolicyKeepsPolicy(w, GET_READY);
    RunThree(w, GET_READY[0], GET_READY[1], GET_READY[2]);
    ControlKeepsProgress(w, GET_READY[0]);
    ControlKeepsProgress(Made(w, GET_READY[0]).w, GET_READY[1]);
    ControlKeepsProgress(Made(Made(w, GET_READY[0]).w, GET_READY[1]).w, GET_READY[2]);
  }

  /** Readiness, for a workload that has declared its total. */
  lemma DeclaredReady(policy: Policy)
    ensures var w := Fresh(1, [], [], policy, TOTAL_KNOWN, 8);
            var v := Run(w, GET_READY);
            && Inv(v) && v.state.READY? && v.episodes == [] && !v.cancel.finished && v.policy == policy
            && v.progress == w.progress
  {
    hide Inv, Run, Fresh;
    var w := Fresh(1, [], [], policy, TOTAL_KNOWN, 8);
    FreshIs(policy);
    RunKeepsInv(w, GET_READY);
    GettingReady(w);
    GettingReadyKeeps(w);
  }

  lemma FreshIs(policy: Policy)
    ensures var w := Fresh(1, [], [], policy, TOTAL_KNOWN, 8);
            && Inv(w) && w == Created(1, [], [], policy).(progress := NO_PROGRESS.(totalKind := TOTAL_KNOWN, total := 8))
            && DepsReady(w.deps)
  {
    CreatedInv(1, [], [], policy);
    StepKeepsInv(Created(1, [], [], policy), Call(OpDeclareTotal(TOTAL_KNOWN, 8), 0));
    hide Inv;
  }

  lemma ThreeIncrements()
    ensures Steps(15, 7) == [7, 7, 1]
    ensures Tallied(Tally(0, []), 0, [7, 7, 1], 8) == Tally(8, Units(0, 7) + Units(14, 1))
    ensures !InOrder(15, 7, 8)
  {
    assert Steps(1, 7) == [1] && Steps(8, 7) == [7] + Steps(1, 7) && Steps(15, 7) == [7] + Steps(8, 7);
    var t := Tally(7, [] + Units(0, 7));
    assert [7, 7, 1][1..] == [7, 1] && [7, 1][1..] == [1] && [1][1..] == [];
    assert Tallied(Tally(0, []), 0, [7, 7, 1], 8) == Tallied(t, 7, [7, 1], 8) == Tallied(t, 14, [1], 8);
    assert Tallied(t, 14, [1], 8) == Tallied(Tally(8, t.counted + Units(14, 1)), 15, [], 8);
    assert [] + Units(0, 7) == Units(0, 7);
  }

  lemma PreparingRuns(w: Workload)
    ensures SystemRun(Initially(w), PREPARE) == Initially(Made(Run(w, GET_READY), Call(OpStartEpisode(1, 1), 1000)).w)
  {
    hide Made, SystemRun;
    RunThree(w, GET_READY[0], GET_READY[1], GET_READY[2]);
    RunFour(Initially(w), GET_READY[0], GET_READY[1], GET_READY[2], Call(OpStartEpisode(1, 1), 1000));
  }

  lemma PreparedToDispatch(policy: Policy)
    ensures var s := SystemRun(Initially(Fresh(1, [], [], policy, TOTAL_KNOWN, 8)), PREPARE);
            && Inv(s.w) && |s.w.episodes| == 1 && !Deaf(s.w) && s.streams == [] && s.counted == []
            && s.w.progress == NO_PROGRESS.(totalKind := TOTAL_KNOWN, total := 8) && s.w.policy == policy
  {
    hide Inv, Made, Fresh, Deaf, Run, SystemRun;
    var w := Fresh(1, [], [], policy, TOTAL_KNOWN, 8);
    FreshIs(policy);
    DeclaredReady(policy);
    PreparingRuns(w);
    ListeningAfterStart(Run(w, GET_READY));
  }

  /**
   * The input on which the check matters: of 8 known units, 15 are dispatched in chunks of 7. The second
   * increment is refused and the third accepted, so unit 7 is never counted, unit 14 is, and the workload
   * stands at its total - under REQUIRED_UNITS with all the evidence it needs to complete.
   */
  lemma SkippedUnit(policy: Policy, runner: Runner, worker: u64, boot: u64)
    ensures var s := SystemRun(Initially(Fresh(1, [], [], policy, TOTAL_KNOWN, 8)), PREPARE);
            var e := DispatchLast(15, 7, runner, worker, boot);
            && MayDispatch(s, 15, 7) && !OrderlyEvent(s, e)
            && var t := SystemRun(s, Whole(s, e));
               && t.w.progress.completed == t.w.progress.total == 8 && 7 !in t.counted && 14 in t.counted
               && (policy.completion.kind.REQUIRED_UNITS? ==> CompletionEvidence(t.w))
  {
    hide Inv, Deaf, SystemRun, Fresh, Tallied, InOrder;
    var s := SystemRun(Initially(Fresh(1, [], [], policy, TOTAL_KNOWN, 8)), PREPARE);
    var e := DispatchLast(15, 7, runner, worker, boot);
    PreparedToDispatch(policy);
    ThreeIncrements();
    WholeTally(s, e);
    var t := SystemRun(s, Whole(s, e));
    assert t.counted == Units(0, 7) + Units(14, 1);
    assert t.counted[7] == 14;
    hide Steps;
  }
}

/** End to end: when every unit of work is counted exactly once, over any losses, restarts and migrations. */
module ExactlyOnce {
  import opened Basics
  import opened Vocabulary
  import opened ProgressModel
  import opened Model
  import opened Lifecycle
  import opened Runs
  import opened Guarantees
  import opened Identities
  import opened Protocol
  import opened Worker
  import opened Sessions
  import opened Increments

  /**
   * The frames of one dispatch that are still to be delivered, in the order the worker sent them; the channel
   * may stop delivering at any frame. `consumed` counts the units the delivered frames reported, accepted or
   * not, and `steps` is what the remaining ones report.
   */
  datatype Stream = Stream(
    episode: nat, dispatch: Message, start: nat, total: nat, consumed: nat, steps: seq<nat>, frames: seq<Bytes>,
    allAccepted: bool)

  /** The workload, one stream per dispatched episode, and the units counted so far in order. */
  datatype System = System(w: Workload, streams: seq<Stream>, counted: seq<nat>)

  datatype Event =
    | Control(c: Call)
    | DispatchLast(total: u64, chunk: u64, runner: Runner, worker: u64, boot: u64)
    | Deliver(stream: nat)

  function Initially(w: Workload): System {
    System(w, [], [])
  }

  predicate Dispatched(streams: seq<Stream>, episode: nat) {
    exists k | 0 <= k < |streams| :: streams[k].episode == episode
  }

  /** The descriptor of a dispatch that resumes from the completed count. */
  function Resuming(p: Progress, total: u64, chunk: u64): Descriptor {
    Descriptor(total, p.completed, chunk)
  }

  /** A dispatch: the last episode, not dispatched before, resumes from the completed count. */
  predicate MayDispatch(s: System, total: u64, chunk: u64) {
    && s.w.episodes != [] && !Dispatched(s.streams, |s.w.episodes| - 1)
    && Accepts(Resuming(s.w.progress, total, chunk))
  }

  /** The dispatch message for the last episode. */
  function DispatchMessage(w: Workload, id: u64): Message {
    BLANK.(kind := DISPATCH, workloadId := w.ident.id, episodeId := id, episodeGen := 1, workloadGen := w.generation)
  }

  /** What the coordinator does with a progress frame: it passes the report on. */
  function Passed(m: Message): Call {
    Call(OpProgress(m.episodeId, m.episodeGen, m.value, m.flag1), 0)
  }

  /** The first undelivered frame of stream `k` arrives and is decoded. */
  function Delivered(s: System, k: nat): System
    requires k < |s.streams| && s.streams[k].frames != []
  {
    var st := s.streams[k];
    var m, left := Decoded(st.frames[0]), st.(frames := st.frames[1..]);
    if m.Some? && m.value.kind.PROGRESS? then
      var r, step := Made(s.w, Passed(m.value)), m.value.value;
      System(r.w,
             s.streams[k := left.(consumed := st.consumed + step, steps := if st.steps == [] then [] else st.steps[1..],
                                  allAccepted := st.allAccepted && r.out.ALLOW?)],
             if r.out.ALLOW? then s.counted + Units(st.start + st.consumed, step) else s.counted)
    else if m.Some? && m.value.kind.COMPLETE? then
      s.(w := MarkCompleted(s.w, m.value.episodeId).w, streams := s.streams[k := left])
    else s.(streams := s.streams[k := left])
  }

  /** Any other call may come at any time; reports reach the workload through frames only. */
  predicate Controls(c: Call) {
    !c.op.OpProgress? && !c.op.OpDeclareTotal?
  }

  function After(s: System, e: Event): System {
    match e
    case Control(c) => if Controls(c) then s.(w := Made(s.w, c).w) else s
    case DispatchLast(total, chunk, runner, worker, boot) =>
      if MayDispatch(s, total, chunk)
      then
        var d, n := Resuming(s.w.progress, total, chunk), |s.w.episodes| - 1;
        var m := DispatchMessage(s.w, s.w.episodes[n].id);
        s.(streams := s.streams + [Stream(n, m, d.resumeFrom, total, 0, Steps(total - d.resumeFrom, chunk),
                                          DispatchFrames(m, d, runner, worker, boot), true)])
      else s
    case Deliver(k) => if k < |s.streams| && s.streams[k].frames != [] then Delivered(s, k) else s
  }

  function SystemRun(s: System, events: seq<Event>): System
    decreases |events|
  {
    if events == [] then s else After(SystemRun(s, events[..|events| - 1]), events[|events| - 1])
  }

  // ---- What a caller checks before a dispatch ------------------------------

  /** How far the completed count may go. */
  function Limit(p: Progress): nat {
    if p.totalKind.TOTAL_KNOWN? then p.total else 0xffff_ffff_ffff_ffff
  }

  function Room(p: Progress): nat {
    if p.completed <= Limit(p) then Limit(p) - p.completed else 0
  }

  /**
   * The dispatched total stays within the known one, or the chunks divide the work, or the last, shorter
   * increment is larger than what whole chunks leave below the known total.
   */
  predicate OrderlyDispatch(p: Progress, d: Descriptor)
    requires Accepts(d)
  {
    InOrder(d.total - d.resumeFrom, d.chunk, Room(p))
  }

  predicate OrderlyEvent(s: System, e: Event) {
    e.DispatchLast? && MayDispatch(s, e.total, e.chunk) ==> OrderlyDispatch(s.w.progress, Resuming(s.w.progress, e.total, e.chunk))
  }

  /** Every dispatch of the run is checked before it is sent. */
  predicate Orderly(s: System, events: seq<Event>) {
    forall i | 0 <= i < |events| :: OrderlyEvent(SystemRun(s, events[..i]), events[i])
  }

  // ---- What every step keeps -----------------------------------------------

  /** No report is accepted any more, whatever is called. */
  predicate Closed(w: Workload) {
    w.cancel.finished || IsCancelling(w.state) || IsTerminal(w.state)
  }

  lemma ControlKeepsClosed(w: Workload, op: Op, minted: u64)
    requires Closed(w) && !TouchesEpisodes(op)
    ensures Closed(Apply(w, op, minted).w)
  {
    hide Guarded, CompleteCancellation, Gate, CurrentEpisode;
    GuardedFrame();
    CompoundCalls();
  }

  lemma EpisodeCallKeepsClosed(w: Workload, op: Op, minted: u64)
    requires Closed(w) && Phase(w) && TouchesEpisodes(op)
    ensures Closed(Apply(w, op, minted).w)
  {
    hide Guarded, TransitionOutcome, CompletionEvidence, FindEpisode, CurrentEpisode;
    hide StartEpisode, CommitMigration, CommitCompletion, CompleteSuspend;
    GuardedFrame();
    EpisodeEdges();
    CompoundCalls();
  }

  lemma ControlKeepsOpenness(w: Workload, c: Call)
    requires Inv(w) && Closed(w)
    ensures Closed(Made(w, c).w)
  {
    hide Apply, Closed, Inv;
    if TouchesEpisodes(c.op) {
      PhaseOf(w);
      EpisodeCallKeepsClosed(w, c.op, c.minted);
    } else {
      ControlKeepsClosed(w, c.op, c.minted);
    }
  }

  lemma PhaseOf(w: Workload)
    requires Inv(w)
    ensures Phase(w) && Handoff(w.episodes, w.progress)
  {
  }

  /** Reports in the name of the last episode are refused. */
  predicate Deaf(w: Workload) {
    w.episodes != [] && !MayReport(w, w.episodes[|w.episodes| - 1].id, 1)
  }

  /** Without a new episode, a workload that stopped listening never listens again. */
  lemma DeafStays(w: Workload, c: Call)
    requires Inv(w) && Deaf(w) && |Made(w, c).w.episodes| == |w.episodes|
    ensures Deaf(Made(w, c).w)
  {
    hide Inv, Apply, MayReport, IsTerminal, IsCancelling;
    var v, n := Made(w, c).w, |w.episodes| - 1;
    StepKeepsInv(w, c);
    StepKeepsIds(w, c);
    WhoMayReportIff(w, w.episodes[n].id, 1);
    WhoMayReportIff(v, v.episodes[n].id, 1);
    if Closed(w) {
      ControlKeepsOpenness(w, c);
    }
  }

  /** What is left of a stream carries the increments left, for the episode at its place. */
  predicate Speaking(st: Stream, id: u64) {
    && st.dispatch.episodeId == id && st.dispatch.episodeGen == 1
    && (if st.frames == [] then st.steps == [] else Carries(st.frames, st.dispatch, st.steps))
  }

  /** What one stream and the workload agree on. */
  predicate StreamOk(w: Workload, st: Stream) {
    && st.episode < |w.episodes| && Speaking(st, w.episodes[st.episode].id)
    && st.start + st.consumed + Total(st.steps) == st.total < TWO64
    && (st.allAccepted ==> st.start + st.consumed <= w.progress.completed)
    && (st.episode == |w.episodes| - 1 ==>
          if st.allAccepted then st.start + st.consumed == w.progress.completed && StopsForGood(st.steps, Room(w.progress))
          else Deaf(w) || AllAbove(st.steps, Room(w.progress)))
  }

  predicate StreamsOk(w: Workload, streams: seq<Stream>) {
    && (forall k | 0 <= k < |streams| :: StreamOk(w, streams[k]))
    && (forall j, k | 0 <= j < k < |streams| :: streams[j].episode != streams[k].episode)
  }

  predicate SystemOk(s: System) {
    Inv(s.w) && WithinTotal(s.w.progress) && CountsUp(s.counted, s.w.progress.completed) && StreamsOk(s.w, s.streams)
  }

  lemma ControlKeepsStream(w: Workload, c: Call, st: Stream)
    requires Inv(w) && Controls(c) && StreamOk(w, st)
    ensures StreamOk(Made(w, c).w, st)
  {
    hide Inv, Apply, Deaf, Total, Carries, StopsForGood, AllAbove;
    ControlKeepsTotal(w, c.op, c.minted);
    StepAppendsAtMostOne(w, c);
    StepKeepsIds(w, c);
    if Deaf(w) && |Made(w, c).w.episodes| == |w.episodes| {
      DeafStays(w, c);
    }
  }

  lemma ControlKeepsSystem(s: System, c: Call)
    requires SystemOk(s) && Controls(c)
    ensures SystemOk(After(s, Control(c)))
  {
    hide Inv, Apply, StreamOk;
    StepKeepsInv(s.w, c);
    ControlKeepsTotal(s.w, c.op, c.minted);
    forall k | 0 <= k < |s.streams| ensures StreamOk(Made(s.w, c).w, s.streams[k]) {
      ControlKeepsStream(s.w, c, s.streams[k]);
    }
  }

  lemma NewStreamOk(s: System, e: Event)
    requires SystemOk(s) && e.DispatchLast? && MayDispatch(s, e.total, e.chunk) && OrderlyEvent(s, e)
    ensures var t := After(s, e); t.w == s.w && |t.streams| == |s.streams| + 1 && StreamOk(t.w, t.streams[|s.streams|])
    ensures After(s, e).streams[..|s.streams|] == s.streams
  {
    hide Inv, Deaf, StreamsOk, Carries, DispatchFrames, StopsForGood;
    var d, n := Resuming(s.w.progress, e.total, e.chunk), |s.w.episodes| - 1;
    var m := DispatchMessage(s.w, s.w.episodes[n].id);
    DispatchCarries(m, d, e.runner, e.worker, e.boot);
    StepsAddUp(e.total - d.resumeFrom, e.chunk);
    InOrderIff(e.total - d.resumeFrom, e.chunk, Room(s.w.progress));
    CarriedNotEmpty(DispatchFrames(m, d, e.runner, e.worker, e.boot), m, Steps(e.total - d.resumeFrom, e.chunk));
    hide Steps;
  }

  lemma CarriedNotEmpty(frames: seq<Bytes>, m: Message, steps: seq<nat>)
    requires Carries(frames, m, steps)
    ensures frames != []
  {
  }

  lemma DispatchKeepsSystem(s: System, e: Event)
    requires SystemOk(s) && e.DispatchLast? && MayDispatch(s, e.total, e.chunk) && OrderlyEvent(s, e)
    ensures SystemOk(After(s, e))
  {
    hide Inv, StreamOk, DispatchFrames, OrderlyDispatch;
    NewStreamOk(s, e);
    var t := After(s, e);
    forall k | 0 <= k < |t.streams| ensures StreamOk(t.w, t.streams[k]) {
      if k < |s.streams| {
        assert t.streams[k] == s.streams[k];
      }
    }
    forall j, k | 0 <= j < k < |t.streams| ensures t.streams[j].episode != t.streams[k].episode {
      if k == |s.streams| {
        assert t.streams[j] == s.streams[j];
      }
    }
  }

  // ---- Delivering a frame --------------------------------------------------

  lemma OnlyLastMayReport(w: Workload, i: nat)
    requires Inv(w) && i < |w.episodes| && MayReport(w, w.episodes[i].id, 1)
    ensures i == |w.episodes| - 1 && !Deaf(w)
  {
    hide Inv, MayReport;
    WhoMayReportIff(w, w.episodes[i].id, 1);
  }

  /** A stream whose next frame reports progress. */
  predicate Pending(s: System, k: nat) {
    k < |s.streams| && s.streams[k].steps != []
  }

  /** The workload still listens to the episode of stream `k`, and the next increment fits. */
  predicate Counts(s: System, k: nat)
    requires Pending(s, k)
  {
    var st := s.streams[k];
    st.episode < |s.w.episodes| && MayReport(s.w, s.w.episodes[st.episode].id, 1) && st.steps[0] <= Room(s.w.progress)
  }

  /** The next frame of a stream decodes to a report of its next increment, in its episode's name. */
  lemma NextFrame(s: System, k: nat)
    requires SystemOk(s) && Pending(s, k)
    ensures var st := s.streams[k];
            && st.frames != [] && st.episode < |s.w.episodes|
            && var m := Decoded(st.frames[0]);
               && m.Some? && m.value.kind.PROGRESS? && m.value.value == st.steps[0]
               && Passed(m.value) == Call(OpProgress(s.w.episodes[st.episode].id, 1, m.value.value, true), 0)
  {
    hide Inv, Deaf, Decoded, StopsForGood;
    var st := s.streams[k];
    assert StreamOk(s.w, st);
    assert Reports(st.frames[0], st.dispatch, st.steps[0]);
  }

  /** Only a stream still in step counts, and its next increment starts exactly where the workload stands. */
  lemma NextFrameCounts(s: System, k: nat)
    requires SystemOk(s) && Pending(s, k) && Counts(s, k)
    ensures var st := s.streams[k];
            && st.episode == |s.w.episodes| - 1 && st.allAccepted && st.start + st.consumed == s.w.progress.completed
            && s.w.progress.completed + st.steps[0] <= Limit(s.w.progress)
  {
    hide Inv, Deaf, MayReport, Carries;
    assert StreamOk(s.w, s.streams[k]);
    OnlyLastMayReport(s.w, s.streams[k].episode);
  }

  /** The report the next frame makes, and what it does to the workload. */
  predicate FrameDoes(s: System, k: nat, r: Step)
    requires Pending(s, k)
  {
    && (r.out.ALLOW? <==> Counts(s, k))
    && (r.out.ALLOW? ==> r.w.progress.completed == s.w.progress.completed + s.streams[k].steps[0])
    && (!r.out.ALLOW? ==> r.w == s.w)
    && WithinTotal(r.w.progress) && r.w.progress.totalKind == s.w.progress.totalKind && r.w.progress.total == s.w.progress.total
    && SameIds(s.w.episodes, r.w.episodes) && |r.w.episodes| == |s.w.episodes|
  }

  /** A report is accepted exactly when its increment counts. */
  lemma ReportDoes(s: System, k: nat, delta: u64)
    requires Inv(s.w) && WithinTotal(s.w.progress) && Pending(s, k) && s.streams[k].episode < |s.w.episodes|
    requires delta == s.streams[k].steps[0]
    ensures FrameDoes(s, k, ReportProgress(s.w, s.w.episodes[s.streams[k].episode].id, 1, delta, true))
  {
    hide Inv, MayReport, ReportProgress;
    var id := s.w.episodes[s.streams[k].episode].id;
    ReportAcceptedIff(s.w, id, 1, delta, true);
    ReportKeepsCast(s.w, id, 1, delta, true);
    ReportKeepsTotal(s.w, id, delta);
  }

  lemma ReportKeepsTotal(w: Workload, id: u64, delta: u64)
    ensures var r := ReportProgress(w, id, 1, delta, true);
            r.w.progress.totalKind == w.progress.totalKind && r.w.progress.total == w.progress.total && (!r.out.ALLOW? ==> r.w == w)
  {
    hide IsTerminal, IsCancelling;
  }

  function NextReport(s: System, k: nat): Step
    requires Pending(s, k) && s.streams[k].frames != [] && Decoded(s.streams[k].frames[0]).Some?
  {
    Made(s.w, Passed(Decoded(s.streams[k].frames[0]).value))
  }

  lemma FrameEffect(s: System, k: nat)
    requires SystemOk(s) && Pending(s, k)
    ensures s.streams[k].frames != [] && s.streams[k].episode < |s.w.episodes| && Decoded(s.streams[k].frames[0]).Some?
    ensures FrameDoes(s, k, NextReport(s, k)) && Inv(NextReport(s, k).w)
  {
    hide Inv, MayReport, Made, StreamsOk, FrameDoes, Decoded;
    NextFrame(s, k);
    var c := Passed(Decoded(s.streams[k].frames[0]).value);
    ReportIs(s.w, c);
    ReportDoes(s, k, c.op.delta);
    StepKeepsInv(s.w, c);
  }

  lemma CountsFurther(counted: seq<nat>, completed: nat, step: nat)
    requires CountsUp(counted, completed)
    ensures CountsUp(counted + Units(completed, step), completed + step)
  {
  }

  lemma CarriesTail(frames: seq<Bytes>, m: Message, steps: seq<nat>)
    requires Carries(frames, m, steps) && steps != []
    ensures Carries(frames[1..], m, steps[1..])
  {
    forall i | 0 <= i < |steps| - 1 ensures Reports(frames[1..][i], m, steps[1..][i]) {
      assert Reports(frames[i + 1], m, steps[i + 1]);
    }
    hide Reports;
  }

  lemma AboveTail(steps: seq<nat>, room: int)
    requires steps != [] && AllAbove(steps, room)
    ensures AllAbove(steps[1..], room)
  {
    assert forall i | 0 <= i < |steps| - 1 :: steps[1..][i] == steps[i + 1];
  }

  lemma OtherStreamAfterFrame(s: System, k: nat, j: nat, v: Workload)
    requires SystemOk(s) && Pending(s, k) && j < |s.streams| && j != k
    requires FrameDoes(s, k, Step(v, ALLOW)) || v == s.w
    ensures StreamOk(v, s.streams[j])
  {
    hide Inv, Deaf, MayReport, Carries, StopsForGood, AllAbove;
    assert StreamOk(s.w, s.streams[j]) && s.streams[j].episode != s.streams[k].episode;
    if v != s.w {
      NextFrameCounts(s, k);
    }
  }

  /** The stream itself, one frame shorter. */
  function Shorter(st: Stream, accepted: bool): Stream
    requires st.steps != [] && st.frames != []
  {
    st.(frames := st.frames[1..], consumed := st.consumed + st.steps[0], steps := st.steps[1..],
        allAccepted := st.allAccepted && accepted)
  }

  lemma StreamAfterAccepted(s: System, k: nat, v: Workload)
    requires SystemOk(s) && Pending(s, k) && s.streams[k].frames != [] && Counts(s, k) && FrameDoes(s, k, Step(v, ALLOW))
    ensures StreamOk(v, Shorter(s.streams[k], true))
  {
    hide Inv, MayReport, Carries, AllAbove;
    assert StreamOk(s.w, s.streams[k]);
    NextFrameCounts(s, k);
    CarriesTail(s.streams[k].frames, s.streams[k].dispatch, s.streams[k].steps);
    CarriedNotEmpty(s.streams[k].frames[1..], s.streams[k].dispatch, s.streams[k].steps[1..]);
  }

  lemma StreamAfterRefused(s: System, k: nat)
    requires SystemOk(s) && Pending(s, k) && s.streams[k].frames != [] && !Counts(s, k)
    ensures StreamOk(s.w, Shorter(s.streams[k], false))
  {
    hide Inv, MayReport, Carries, AllAbove;
    var st := s.streams[k];
    assert StreamOk(s.w, st);
    CarriesTail(st.frames, st.dispatch, st.steps);
    CarriedNotEmpty(st.frames[1..], st.dispatch, st.steps[1..]);
    if AllAbove(st.steps, Room(s.w.progress)) {
      AboveTail(st.steps, Room(s.w.progress));
    }
  }

  lemma DeliveredIs(s: System, k: nat)
    requires SystemOk(s) && Pending(s, k)
    ensures s.streams[k].frames != [] && Decoded(s.streams[k].frames[0]).Some?
    ensures var st, r := s.streams[k], NextReport(s, k);
            Delivered(s, k) ==
            System(r.w, s.streams[k := Shorter(st, r.out.ALLOW?)],
                   if r.out.ALLOW? then s.counted + Units(st.start + st.consumed, st.steps[0]) else s.counted)
  {
    hide Inv, Made, Decoded, StreamsOk;
    NextFrame(s, k);
  }

  lemma FrameKeepsSystem(s: System, k: nat)
    requires SystemOk(s) && Pending(s, k) && s.streams[k].frames != []
    ensures SystemOk(Delivered(s, k))
  {
    hide Inv, StreamOk, Delivered, NextReport, Counts;
    FrameEffect(s, k);
    DeliveredIs(s, k);
    var t, r := Delivered(s, k), NextReport(s, k);
    if r.out.ALLOW? {
      StreamAfterAccepted(s, k, r.w);
      NextFrameCounts(s, k);
      CountsFurther(s.counted, s.w.progress.completed, s.streams[k].steps[0]);
    } else {
      StreamAfterRefused(s, k);
    }
    forall j | 0 <= j < |t.streams| ensures StreamOk(t.w, t.streams[j]) {
      if j != k {
        OtherStreamAfterFrame(s, k, j, r.w);
      }
    }
  }

  lemma LastFrame(s: System, k: nat)
    requires SystemOk(s) && k < |s.streams| && s.streams[k].frames != [] && s.streams[k].steps == []
    ensures var m, st := Decoded(s.streams[k].frames[0]), s.streams[k];
            && m.Some? && m.value.kind.COMPLETE? && st.episode < |s.w.episodes| && m.value.episodeId == s.w.episodes[st.episode].id
            && |st.frames| == 1
  {
    hide Inv, Deaf, Decoded, StopsForGood, AllAbove;
    assert StreamOk(s.w, s.streams[k]);
    assert Sessions.Completes(s.streams[k].frames[0], s.streams[k].dispatch);
  }

  /** A completion frame only marks its episode. */
  lemma CompletionKeepsSystem(s: System, k: nat)
    requires SystemOk(s) && k < |s.streams| && s.streams[k].frames != [] && s.streams[k].steps == []
    ensures SystemOk(Delivered(s, k))
  {
    hide Inv, Apply, Decoded, StreamOk, MarkCompleted;
    LastFrame(s, k);
    var c := Call(OpEpisodeCompleted(Decoded(s.streams[k].frames[0]).value.episodeId), 0);
    ControlKeepsSystem(s, c);
    CompletionIs(s.w, c);
    var t := Delivered(s, k);
    assert s.streams[k].frames[1..] == [];
    forall j | 0 <= j < |t.streams| ensures StreamOk(t.w, t.streams[j]) {
      assert StreamOk(t.w, s.streams[j]);
      EmptiedStream(t.w, s.streams[j]);
    }
  }

  lemma EmptiedStream(w: Workload, st: Stream)
    requires StreamOk(w, st)
    ensures st.steps == [] ==> StreamOk(w, st.(frames := []))
  {
    hide Deaf, StopsForGood, AllAbove, Carries;
  }

  lemma CompletionIs(w: Workload, c: Call)
    requires c.op.OpEpisodeCompleted?
    ensures Made(w, c).w == MarkCompleted(w, c.op.episode).w
  {
  }

  lemma EventKeepsSystem(s: System, e: Event)
    requires SystemOk(s) && OrderlyEvent(s, e)
    ensures SystemOk(After(s, e))
  {
    hide SystemOk, Made, Delivered, MayDispatch, OrderlyDispatch, DispatchFrames;
    match e {
      case Control(c) =>
        if Controls(c) {
          ControlKeepsSystem(s, c);
        }
      case DispatchLast(total, chunk, runner, worker, boot) =>
        if MayDispatch(s, total, chunk) {
          DispatchKeepsSystem(s, e);
        }
      case Deliver(k) =>
        if k < |s.streams| && s.streams[k].frames != [] {
          if s.streams[k].steps == [] {
            CompletionKeepsSystem(s, k);
          } else {
            FrameKeepsSystem(s, k);
          }
        }
    }
  }

  lemma {:induction false} RunKeepsSystem(s: System, events: seq<Event>)
    requires SystemOk(s) && Orderly(s, events)
    ensures SystemOk(SystemRun(s, events))
    decreases |events|
  {
    hide SystemOk, After, OrderlyEvent;
    if events != [] {
      var n, init := |events| - 1, events[..|events| - 1];
      forall i | 0 <= i < n ensures OrderlyEvent(SystemRun(s, init[..i]), init[i]) {
        assert init[..i] == events[..i] && init[i] == events[i];
      }
      RunKeepsSystem(s, init);
      assert OrderlyEvent(SystemRun(s, events[..n]), events[n]);
      EventKeepsSystem(SystemRun(s, init), events[n]);
    }
  }

  // ---- The guarantees ------------------------------------------------------

  /** A fresh workload, with or without a declared total. */
  function Fresh(id: u64, name: Bytes, intent: Bytes, policy: Policy, kind: TotalKind, total: u64): Workload {
    Made(Created(id, name, intent, policy), Call(OpDeclareTotal(kind, total), 0)).w
  }

  lemma FreshSystem(id: u64, name: Bytes, intent: Bytes, policy: Policy, kind: TotalKind, total: u64)
    ensures SystemOk(Initially(Fresh(id, name, intent, policy, kind, total)))
  {
    hide Inv;
    CreatedInv(id, name, intent, policy);
    StepKeepsInv(Created(id, name, intent, policy), Call(OpDeclareTotal(kind, total), 0));
  }

  /**
   * Exactly once: after any sequence of control calls, orderly dispatches and deliveries - worker losses,
   * restarts, migrations, cancellations, cut channels and late frames included - the units counted are
   * 0, 1, 2, ... up to the workload's completed count: no gap, no unit twice, each by one accepted frame.
   */
  lemma EveryUnitOnce(id: u64, name: Bytes, intent: Bytes, policy: Policy, kind: TotalKind, total: u64, events: seq<Event>)
    requires Orderly(Initially(Fresh(id, name, intent, policy, kind, total)), events)
    ensures var s := SystemRun(Initially(Fresh(id, name, intent, policy, kind, total)), events);
            SystemOk(s) && CountsUp(s.counted, s.w.progress.completed)
  {
    hide SystemRun, Inv, StreamsOk, Fresh, Orderly;
    FreshSystem(id, name, intent, policy, kind, total);
    RunKeepsSystem(Initially(Fresh(id, name, intent, policy, kind, total)), events);
  }

  /** Without a known total every dispatch is orderly. */
  lemma UnknownTotalIsOrderly(p: Progress, d: Descriptor)
    requires p.totalKind.TOTAL_UNKNOWN? && Accepts(d) && d.resumeFrom == p.completed
    ensures OrderlyDispatch(p, d)
  {
  }

  /** Late frames of episodes that lost authority change nothing in the workload and count nothing. */
  lemma LateFramesAddNothing(s: System, k: nat)
    requires SystemOk(s) && Pending(s, k) && s.streams[k].episode < |s.w.episodes| - 1
    ensures var t := After(s, Deliver(k)); t.w == s.w && t.counted == s.counted
  {
    hide Inv, MayReport, NextReport, Delivered, StreamsOk;
    FrameEffect(s, k);
    DeliveredIs(s, k);
    if Counts(s, k) {
      OnlyLastMayReport(s.w, s.streams[k].episode);
    }
  }

  /**
   * When every progress frame of a dispatch was accepted, all units up to the dispatched total are counted -
   * and exactly those, while its episode is still the last one.
   */
  lemma AllAcceptedReachesTotal(s: System, k: nat)
    requires SystemOk(s) && k < |s.streams| && s.streams[k].steps == [] && s.streams[k].allAccepted
    ensures s.w.progress.completed >= s.streams[k].total
    ensures s.streams[k].episode == |s.w.episodes| - 1 ==> s.w.progress.completed == s.streams[k].total
  {
    assert StreamOk(s.w, s.streams[k]);
    hide Inv, Deaf, StreamsOk, Carries;
  }

  /** A frame of the last episode is accepted exactly when the workload still listens and the increment fits. */
  lemma AcceptedIffHeardAndFits(s: System, k: nat)
    requires SystemOk(s) && Pending(s, k) && s.streams[k].episode == |s.w.episodes| - 1
    ensures s.streams[k].frames != [] && Decoded(s.streams[k].frames[0]).Some?
    ensures NextReport(s, k).out.ALLOW? <==> !Deaf(s.w) && s.streams[k].steps[0] <= Room(s.w.progress)
  {
    hide Inv, MayReport, NextReport, StreamsOk, Decoded;
    FrameEffect(s, k);
  }
}

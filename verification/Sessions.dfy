/** What the frames of a worker's session mean to whoever receives them (src/worker.cpp). */
module Sessions {
  import opened Basics
  import opened Vocabulary
  import opened Protocol
  import opened Worker

  // ---- The frames of one dispatch ------------------------------------------

  lemma {:induction false} DecimalShort(v: nat)
    ensures |Decimal(v)| <= 1 + v / 10
  {
    if v >= 10 {
      DecimalShort(v / 10);
    }
  }

  lemma FrameBack(m: Message)
    requires SizedMessage(m)
    ensures Decoded(Encoded(m)) == Some(m)
  {
    hide Decoded, Body;
    assert |Encoded(m)| >= 4;
    FrameRoundTrip(m, [], 0);
    assert Encoded(m) + [] == Encoded(m);
  }

  lemma {:induction false} ProgressFramesAre(m: Message, worker: u64, boot: u64, steps: seq<nat>)
    ensures |ProgressFrames(m, worker, boot, steps)| == |steps|
    ensures forall i | 0 <= i < |steps| :: ProgressFrames(m, worker, boot, steps)[i] == Encoded(ProgressReport(m, worker, boot, steps[i]))
  {
    hide Encoded, ProgressReport;
    if steps != [] {
      ProgressFramesAre(m, worker, boot, steps[1..]);
    }
  }

  /** The frame tells that `step` more units of the dispatched episode are done, durably. */
  predicate Reports(frame: Bytes, dispatch: Message, step: nat) {
    var m := Decoded(frame);
    && m.Some? && m.value.kind.PROGRESS? && m.value.value == step && m.value.flag1
    && m.value.episodeId == dispatch.episodeId && m.value.episodeGen == dispatch.episodeGen
    && m.value.workloadId == dispatch.workloadId
  }

  predicate Completes(frame: Bytes, dispatch: Message) {
    var m := Decoded(frame);
    && m.Some? && m.value.kind.COMPLETE? && m.value.episodeId == dispatch.episodeId && m.value.workloadId == dispatch.workloadId
  }

  /** The frames carry the increments one by one, and then the completion. */
  predicate Carries(frames: seq<Bytes>, dispatch: Message, steps: seq<nat>) {
    && |frames| == |steps| + 1
    && (forall i | 0 <= i < |steps| :: Reports(frames[i], dispatch, steps[i]))
    && Completes(frames[|steps|], dispatch)
  }

  /** Every field of the report, as the dispatch and the worker determine it. */
  predicate ReportsAs(frame: Bytes, dispatch: Message, worker: u64, boot: u64, step: nat) {
    && step < TWO64
    && Decoded(frame) == Some(Message(PROGRESS, dispatch.workloadId, dispatch.episodeId, dispatch.episodeGen, dispatch.workloadGen,
                                      worker, boot, step, true, false, [], []))
  }

  /** Every field of the completion; its payload is the result in decimal digits. */
  predicate CompletesWith(frame: Bytes, dispatch: Message, worker: u64, boot: u64, result: int) {
    var m := Decoded(frame);
    && m.Some? && IsDecimal(m.value.payload) && ReadDecimal(m.value.payload) == result
    && m.value == Message(COMPLETE, dispatch.workloadId, dispatch.episodeId, dispatch.episodeGen, dispatch.workloadGen,
                          worker, boot, 0, false, false, m.value.payload, [])
  }

  lemma ReportReports(m: Message, worker: u64, boot: u64, step: nat)
    requires step < TWO64
    ensures ReportsAs(Encoded(ProgressReport(m, worker, boot, step)), m, worker, boot, step)
  {
    hide Decoded, Encoded;
    FrameBack(ProgressReport(m, worker, boot, step));
  }

  lemma CompletionCompletes(m: Message, worker: u64, boot: u64, result: u64)
    ensures CompletesWith(Encoded(CompletionReport(m, worker, boot, result)), m, worker, boot, result)
  {
    hide Decoded, Encoded, Decimal, ReadDecimal, IsDecimal;
    DecimalShort(result);
    DecimalReadsBack(result);
    FrameBack(CompletionReport(m, worker, boot, result));
  }

  lemma ReportsEnough(frame: Bytes, m: Message, worker: u64, boot: u64, step: nat)
    ensures ReportsAs(frame, m, worker, boot, step) ==> Reports(frame, m, step)
    ensures CompletesWith(frame, m, worker, boot, step) ==> Completes(frame, m)
  {
    hide Decoded, IsDecimal, ReadDecimal;
  }

  /** The 64-bit result of a dispatch: the runner summed over the units left, whatever the chunk. */
  function ResultOf(d: Descriptor, runner: Runner): nat
    requires Accepts(d)
  {
    Sum(runner, d.resumeFrom, d.total - d.resumeFrom, d.total) % 0x1_0000_0000_0000_0000
  }

  /** What the worker answers a dispatch with, field by field: its increments in order, and then its result. */
  predicate AnswersDispatch(frames: seq<Bytes>, m: Message, worker: u64, boot: u64, steps: seq<nat>, result: nat) {
    && |frames| == |steps| + 1
    && (forall i | 0 <= i < |steps| :: ReportsAs(frames[i], m, worker, boot, steps[i]))
    && CompletesWith(frames[|steps|], m, worker, boot, result)
  }

  /**
   * Decoding what a dispatch made the worker send gives back its increments, in order, and then a completion
   * whose payload is, in decimal, the runner's sum over the units left modulo 2^64.
   */
  lemma DispatchCarriesSteps(m: Message, d: Descriptor, runner: Runner, worker: u64, boot: u64)
    requires Accepts(d)
    ensures var frames, steps := DispatchFrames(m, d, runner, worker, boot), Steps(d.total - d.resumeFrom, d.chunk);
            AnswersDispatch(frames, m, worker, boot, steps, ResultOf(d, runner)) && Carries(frames, m, steps)
  {
    hide Encoded, ProgressReport, CompletionReport, ProgressFrames, Computed, Reports, Completes, ReportsAs, CompletesWith, Sum;
    var steps := Steps(d.total - d.resumeFrom, d.chunk);
    StepsCover(d.total - d.resumeFrom, d.chunk);
    ProgressFramesAre(m, worker, boot, steps);
    var frames := ProgressFrames(m, worker, boot, steps);
    forall i | 0 <= i < |steps| ensures ReportsAs(frames[i], m, worker, boot, steps[i]) && Reports(frames[i], m, steps[i]) {
      ReportReports(m, worker, boot, steps[i]);
      ReportsEnough(frames[i], m, worker, boot, steps[i]);
    }
    ComputedIsSum(runner, d.resumeFrom, d.total - d.resumeFrom, d.total);
    CompletionCompletes(m, worker, boot, ResultOf(d, runner));
    ReportsEnough(Encoded(CompletionReport(m, worker, boot, ResultOf(d, runner))), m, worker, boot, ResultOf(d, runner));
    hide Steps;
  }

  lemma DispatchCarries(m: Message, d: Descriptor, runner: Runner, worker: u64, boot: u64)
    requires Accepts(d)
    ensures Carries(DispatchFrames(m, d, runner, worker, boot), m, Steps(d.total - d.resumeFrom, d.chunk))
  {
    hide DispatchFrames, Carries, AnswersDispatch, ResultOf, Steps;
    DispatchCarriesSteps(m, d, runner, worker, boot);
  }

  /** Units the progress frames among these tell of. */
  function Reported(frames: seq<Bytes>): nat {
    if frames == [] then 0
    else
      var m := Decoded(frames[|frames| - 1]);
      Reported(frames[..|frames| - 1]) + if m.Some? && m.value.kind.PROGRESS? then m.value.value else 0
  }

  predicate HasCompletion(frames: seq<Bytes>) {
    exists i | 0 <= i < |frames| :: Decoded(frames[i]).Some? && Decoded(frames[i]).value.kind.COMPLETE?
  }

  lemma {:induction false} TotalSnoc(steps: seq<nat>, n: nat)
    requires n < |steps|
    ensures Total(steps[..n + 1]) == Total(steps[..n]) + steps[n]
  {
    if n > 0 {
      TotalSnoc(steps[1..], n - 1);
      assert steps[..n + 1][1..] == steps[1..][..n] && steps[..n][1..] == steps[1..][..n - 1];
    } else {
      assert steps[..1][1..] == [];
    }
  }

  lemma {:induction false} TotalSplits(steps: seq<nat>, n: nat)
    requires n <= |steps|
    ensures Total(steps) == Total(steps[..n]) + Total(steps[n..])
  {
    if n > 0 {
      TotalSplits(steps[1..], n - 1);
      assert steps[..n][1..] == steps[1..][..n - 1];
    } else {
      assert steps[0..] == steps;
    }
  }

  lemma {:induction false} CarriedUnits(frames: seq<Bytes>, dispatch: Message, steps: seq<nat>, n: nat)
    requires Carries(frames, dispatch, steps) && n <= |steps|
    ensures Reported(frames[..n]) == Total(steps[..n]) && !HasCompletion(frames[..n])
  {
    hide Decoded;
    if n > 0 {
      CarriedUnits(frames, dispatch, steps, n - 1);
      assert frames[..n][..n - 1] == frames[..n - 1];
      TotalSnoc(steps, n - 1);
      assert Reports(frames[n - 1], dispatch, steps[n - 1]);
      assert forall i | 0 <= i < n - 1 :: frames[..n][i] == frames[..n - 1][i];
    }
  }

  lemma PartOfSteps(steps: seq<nat>, n: nat)
    requires n < |steps| && forall i | 0 <= i < |steps| :: steps[i] > 0
    ensures Total(steps[..n]) < Total(steps)
  {
    TotalSplits(steps, n);
    assert steps[n..][0] == steps[n] > 0;
  }

  /** All frames out: the completion is the last of them and reports nothing itself. */
  lemma AllCarried(frames: seq<Bytes>, dispatch: Message, steps: seq<nat>)
    requires Carries(frames, dispatch, steps)
    ensures HasCompletion(frames) && Reported(frames) == Total(steps)
  {
    hide Decoded, Reports, Total;
    CarriedUnits(frames, dispatch, steps, |steps|);
    assert steps[..|steps|] == steps && frames[..|steps|] == frames[..|frames| - 1];
    assert Completes(frames[|steps|], dispatch);
  }

  lemma SomeCarried(frames: seq<Bytes>, dispatch: Message, steps: seq<nat>, n: nat)
    requires Carries(frames, dispatch, steps) && n <= |steps| && forall i | 0 <= i < |steps| :: steps[i] > 0
    ensures !HasCompletion(frames[..n]) && (Reported(frames[..n]) == Total(steps) <==> n == |steps|)
  {
    hide Carries, HasCompletion, Reported, Total;
    CarriedUnits(frames, dispatch, steps, n);
    if n < |steps| {
      PartOfSteps(steps, n);
    } else {
      assert steps[..n] == steps;
    }
  }

  /**
   * However early the connection breaks: the frames of a dispatch that got out include its completion
   * exactly when all of them did, and then the reported units are all the units of the dispatch.
   */
  lemma CompletionMeansAllReported(m: Message, d: Descriptor, runner: Runner, worker: u64, boot: u64, n: nat)
    requires Accepts(d) && n <= |DispatchFrames(m, d, runner, worker, boot)|
    ensures var frames := DispatchFrames(m, d, runner, worker, boot);
            && (HasCompletion(frames[..n]) <==> n == |frames|)
            && (HasCompletion(frames[..n]) ==> Reported(frames[..n]) == d.total - d.resumeFrom)
            && (Reported(frames[..n]) == d.total - d.resumeFrom <==> n >= |frames| - 1)
  {
    hide DispatchFrames, Carries, HasCompletion, Reported, Steps, Total;
    var frames, steps := DispatchFrames(m, d, runner, worker, boot), Steps(d.total - d.resumeFrom, d.chunk);
    DispatchCarries(m, d, runner, worker, boot);
    CarriedLength(frames, m, steps);
    StepsAddUp(d.total - d.resumeFrom, d.chunk);
    if n == |frames| {
      assert frames[..n] == frames;
      AllCarried(frames, m, steps);
    } else {
      SomeCarried(frames, m, steps, n);
    }
  }

  lemma CarriedLength(frames: seq<Bytes>, dispatch: Message, steps: seq<nat>)
    requires Carries(frames, dispatch, steps)
    ensures |frames| == |steps| + 1
  {
  }

  // ---- The receive loop ----------------------------------------------------

  predicate IsDispatch(frame: Bytes, parse: Parser) {
    var m := Decoded(frame);
    m.Some? && m.value.kind.DISPATCH? && parse(m.value.payload).Some? && Accepts(parse(m.value.payload).value)
  }

  /** The frame ends the session whatever the connection: a shutdown, a cancel, or a dispatch with a bad descriptor. */
  predicate Halts(frame: Bytes, parse: Parser) {
    var m := Decoded(frame);
    && m.Some?
    && (m.value.kind.SHUTDOWN? || m.value.kind.CANCEL? || (m.value.kind.DISPATCH? && !IsDispatch(frame, parse)))
  }

  /** What the worker wants to send in answer to one frame. */
  function Answer(frame: Bytes, parse: Parser, runner: Runner, worker: u64, boot: u64): seq<Bytes> {
    var m := Decoded(frame);
    if m.Some? && m.value.kind.PING? then [Encoded(BLANK)]
    else if IsDispatch(frame, parse) then DispatchFrames(m.value, parse(m.value.payload).value, runner, worker, boot)
    else []
  }

  function Answers(frames: seq<Bytes>, parse: Parser, runner: Runner, worker: u64, boot: u64): seq<Bytes> {
    if frames == [] then []
    else Answer(frames[0], parse, runner, worker, boot) + Answers(frames[1..], parse, runner, worker, boot)
  }

  /** The frame does not end the session, and if it is a dispatch, its frames fit in behind all answers before it. */
  predicate QuietAt(inbox: seq<Bytes>, i: nat, room: int, parse: Parser, runner: Runner, worker: u64, boot: u64)
    requires i < |inbox|
  {
    && !Halts(inbox[i], parse)
    && (IsDispatch(inbox[i], parse) ==> |Answers(inbox[..i + 1], parse, runner, worker, boot)| <= room)
  }

  /** No frame ends the session, and each dispatch finds room for all its frames after what was answered before. */
  predicate Quiet(inbox: seq<Bytes>, room: nat, parse: Parser, runner: Runner, worker: u64, boot: u64) {
    forall i | 0 <= i < |inbox| :: QuietAt(inbox, i, room, parse, runner, worker, boot)
  }

  /** The exit code that the frame which ended the session stands for. */
  predicate EndedBy(frame: Bytes, parse: Parser, exit: Exit) {
    var m := Decoded(frame);
    && m.Some? && exit.Returned?
    && match m.value.kind
       case SHUTDOWN => exit.code == 0
       case CANCEL => exit.code == 4
       case DISPATCH => if IsDispatch(frame, parse) then exit.code == 6 || exit.code == 7 else exit.code == 5
       case _ => false
  }

  lemma SentTwice(l: Link, a: seq<Bytes>, b: seq<Bytes>)
    ensures Sent(Sent(l, a), b) == Sent(l, a + b)
  {
    if |a| <= l.room {
      var n := if |b| <= l.room - |a| then |b| else l.room - |a|;
      assert (a + b)[..|a| + n] == a + b[..n];
      assert l.sent + a + b[..n] == l.sent + (a + b[..n]);
    } else {
      assert (a + b)[..l.room] == a[..l.room];
      assert b[..0] == [];
    }
  }

  lemma DispatchIsAnswered(frame: Bytes, parse: Parser, runner: Runner, worker: u64, boot: u64)
    ensures IsDispatch(frame, parse) ==> |Answer(frame, parse, runner, worker, boot)| > 0
  {
    hide Decoded, Encoded, ProgressFrames;
  }

  lemma {:induction false} DispatchesAreAnswered(frames: seq<Bytes>, parse: Parser, runner: Runner, worker: u64, boot: u64)
    requires frames != []
    ensures IsDispatch(frames[|frames| - 1], parse) ==> |Answers(frames, parse, runner, worker, boot)| > 0
  {
    hide Answer, IsDispatch;
    if |frames| > 1 {
      DispatchesAreAnswered(frames[1..], parse, runner, worker, boot);
    } else {
      DispatchIsAnswered(frames[0], parse, runner, worker, boot);
    }
  }

  lemma AnswersShift(inbox: seq<Bytes>, i: nat, parse: Parser, runner: Runner, worker: u64, boot: u64)
    requires i < |inbox|
    ensures Answers(inbox[..i + 1], parse, runner, worker, boot) ==
            Answer(inbox[0], parse, runner, worker, boot) + Answers(inbox[1..][..i], parse, runner, worker, boot)
  {
    hide Answer;
    assert inbox[..i + 1][1..] == inbox[1..][..i];
  }

  function Left(room: nat, used: nat): nat {
    if used <= room then room - used else 0
  }

  lemma QuietShift(inbox: seq<Bytes>, i: nat, room: nat, parse: Parser, runner: Runner, worker: u64, boot: u64)
    requires i + 1 < |inbox|
    ensures QuietAt(inbox, i + 1, room, parse, runner, worker, boot) <==>
            QuietAt(inbox[1..], i, Left(room, |Answer(inbox[0], parse, runner, worker, boot)|), parse, runner, worker, boot)
  {
    hide Answer, Halts, IsDispatch;
    var tail := inbox[1..];
    AnswersShift(inbox, i + 1, parse, runner, worker, boot);
    DispatchesAreAnswered(tail[..i + 1], parse, runner, worker, boot);
    assert tail[..i + 1][i] == tail[i] == inbox[i + 1];
    hide Answers;
  }

  /** One frame the session survives, and the room it leaves. */
  lemma QuietSteps(inbox: seq<Bytes>, room: nat, parse: Parser, runner: Runner, worker: u64, boot: u64)
    requires inbox != []
    ensures var a := |Answer(inbox[0], parse, runner, worker, boot)|;
            Quiet(inbox, room, parse, runner, worker, boot) <==>
              && !Halts(inbox[0], parse) && (IsDispatch(inbox[0], parse) ==> a <= room)
              && Quiet(inbox[1..], Left(room, a), parse, runner, worker, boot)
  {
    hide Answer, Halts, IsDispatch, QuietAt;
    var left, tail := Left(room, |Answer(inbox[0], parse, runner, worker, boot)|), inbox[1..];
    FirstQuiet(inbox, room, parse, runner, worker, boot);
    if Quiet(inbox, room, parse, runner, worker, boot) {
      forall i | 0 <= i < |tail| ensures QuietAt(tail, i, left, parse, runner, worker, boot) {
        QuietShift(inbox, i, room, parse, runner, worker, boot);
        assert QuietAt(inbox, i + 1, room, parse, runner, worker, boot);
      }
    }
    if Quiet(tail, left, parse, runner, worker, boot) && QuietAt(inbox, 0, room, parse, runner, worker, boot) {
      forall i | 0 <= i < |inbox| ensures QuietAt(inbox, i, room, parse, runner, worker, boot) {
        if i > 0 {
          QuietShift(inbox, i - 1, room, parse, runner, worker, boot);
          assert QuietAt(tail, i - 1, left, parse, runner, worker, boot);
        }
      }
    }
  }

  lemma FirstQuiet(inbox: seq<Bytes>, room: nat, parse: Parser, runner: Runner, worker: u64, boot: u64)
    requires inbox != []
    ensures QuietAt(inbox, 0, room, parse, runner, worker, boot) <==>
            !Halts(inbox[0], parse) && (IsDispatch(inbox[0], parse) ==> |Answer(inbox[0], parse, runner, worker, boot)| <= room)
  {
    hide Answer, Halts, IsDispatch;
    FirstAnswer(inbox[0], parse, runner, worker, boot);
    assert inbox[..1] == [inbox[0]];
  }

  lemma QuietWhenNothingArrives(room: nat, parse: Parser, runner: Runner, worker: u64, boot: u64)
    ensures Quiet([], room, parse, runner, worker, boot)
  {
  }

  lemma FirstAnswer(f: Bytes, parse: Parser, runner: Runner, worker: u64, boot: u64)
    ensures Answers([f], parse, runner, worker, boot) == Answer(f, parse, runner, worker, boot)
  {
    assert [f][1..] == [];
    assert Answer(f, parse, runner, worker, boot) + [] == Answer(f, parse, runner, worker, boot);
    hide Answer;
  }

  predicate GoesOn(frame: Bytes, room: nat, parse: Parser, runner: Runner, worker: u64, boot: u64) {
    !Halts(frame, parse) && (IsDispatch(frame, parse) ==> |Answer(frame, parse, runner, worker, boot)| <= room)
  }

  lemma ServedGoesOn(l: Link, parse: Parser, runner: Runner, worker: u64, boot: u64)
    requires l.inbox != [] && GoesOn(l.inbox[0], l.room, parse, runner, worker, boot)
    ensures Served(l, parse, runner, worker, boot) ==
            Served(Sent(l.(inbox := l.inbox[1..]), Answer(l.inbox[0], parse, runner, worker, boot)), parse, runner, worker, boot)
  {
    hide Decoded, Encoded, DispatchFrames, Sent;
    SentNone(l.(inbox := l.inbox[1..]));
  }

  lemma ServedStops(l: Link, parse: Parser, runner: Runner, worker: u64, boot: u64)
    requires l.inbox != [] && !GoesOn(l.inbox[0], l.room, parse, runner, worker, boot)
    ensures var e := Served(l, parse, runner, worker, boot);
            && e.link == Sent(l.(inbox := l.inbox[1..]), Answer(l.inbox[0], parse, runner, worker, boot))
            && EndedBy(l.inbox[0], parse, e.exit) && e.exit != Returned(3)
  {
    hide Decoded, Encoded, DispatchFrames, Sent;
    SentNone(l.(inbox := l.inbox[1..]));
  }

  lemma SentLeaves(l: Link, frames: seq<Bytes>)
    ensures Sent(l, frames).inbox == l.inbox && Sent(l, frames).room == Left(l.room, |frames|)
    ensures forall inbox :: Sent(l, frames).(inbox := inbox) == Sent(l.(inbox := inbox), frames)
  {
  }

  /**
   * A prefix of what arrives is handled, and the answers to it are sent in order as far as the connection
   * lasts; the loop runs until the peer closes exactly when everything stays quiet, and otherwise the last
   * frame handled is the one that ended it.
   */
  predicate Means(l: Link, e: Ended, parse: Parser, runner: Runner, worker: u64, boot: u64) {
    && |e.link.inbox| <= |l.inbox|
    && var n := |l.inbox| - |e.link.inbox|;
       && e.link == Sent(l, Answers(l.inbox[..n], parse, runner, worker, boot)).(inbox := l.inbox[n..])
       && (e.exit == Returned(3) <==> Quiet(l.inbox, l.room, parse, runner, worker, boot))
       && (if e.exit == Returned(3) then n == |l.inbox| else n > 0 && EndedBy(l.inbox[n - 1], parse, e.exit))
  }

  lemma StoppedMeans(l: Link, e: Ended, parse: Parser, runner: Runner, worker: u64, boot: u64)
    requires l.inbox != [] && !GoesOn(l.inbox[0], l.room, parse, runner, worker, boot)
    requires e.link == Sent(l.(inbox := l.inbox[1..]), Answer(l.inbox[0], parse, runner, worker, boot))
    requires EndedBy(l.inbox[0], parse, e.exit) && e.exit != Returned(3)
    ensures Means(l, e, parse, runner, worker, boot)
  {
    hide Answer, Halts, IsDispatch, EndedBy, Quiet, Sent;
    SentLeaves(l.(inbox := l.inbox[1..]), Answer(l.inbox[0], parse, runner, worker, boot));
    SentLeaves(l, Answer(l.inbox[0], parse, runner, worker, boot));
    FirstAnswer(l.inbox[0], parse, runner, worker, boot);
    assert l.inbox[..1] == [l.inbox[0]];
    QuietSteps(l.inbox, l.room, parse, runner, worker, boot);
    hide Answers;
  }

  lemma WentOnMeans(l: Link, e: Ended, parse: Parser, runner: Runner, worker: u64, boot: u64)
    requires l.inbox != [] && GoesOn(l.inbox[0], l.room, parse, runner, worker, boot)
    requires Means(Sent(l.(inbox := l.inbox[1..]), Answer(l.inbox[0], parse, runner, worker, boot)), e, parse, runner, worker, boot)
    ensures Means(l, e, parse, runner, worker, boot)
  {
    hide Answer, Halts, IsDispatch, EndedBy, Quiet, Sent;
    var a, rest := Answer(l.inbox[0], parse, runner, worker, boot), l.(inbox := l.inbox[1..]);
    SentLeaves(rest, a);
    QuietSteps(l.inbox, l.room, parse, runner, worker, boot);
    var n := |rest.inbox| - |e.link.inbox|;
    AnswersShift(l.inbox, n, parse, runner, worker, boot);
    assert l.inbox[n + 1..] == rest.inbox[n..];
    SentTwice(rest, a, Answers(rest.inbox[..n], parse, runner, worker, boot));
    SentLeaves(l, Answers(l.inbox[..n + 1], parse, runner, worker, boot));
    hide Answers;
  }

  /**
   * What the receive loop does, said of its frames: it handles a prefix of what arrives and sends the answers
   * to that prefix in order, as far as the connection lasts. It goes on until the peer closes - exit code 3 -
   * exactly when nothing that arrives ends the session and every dispatch finds room; otherwise the last
   * frame handled is the one that ended it, and tells the exit code.
   */
  lemma {:induction false} ServedMeans(l: Link, parse: Parser, runner: Runner, worker: u64, boot: u64)
    ensures Means(l, Served(l, parse, runner, worker, boot), parse, runner, worker, boot)
    decreases |l.inbox|
  {
    if l.inbox == [] {
      QuietWhenNothingArrives(l.room, parse, runner, worker, boot);
      SentNone(l);
    } else {
      hide Served, Means, GoesOn;
      var next := Sent(l.(inbox := l.inbox[1..]), Answer(l.inbox[0], parse, runner, worker, boot));
      if GoesOn(l.inbox[0], l.room, parse, runner, worker, boot) {
        ServedGoesOn(l, parse, runner, worker, boot);
        ServedMeans(next, parse, runner, worker, boot);
        WentOnMeans(l, Served(next, parse, runner, worker, boot), parse, runner, worker, boot);
      } else {
        ServedStops(l, parse, runner, worker, boot);
        StoppedMeans(l, Served(l, parse, runner, worker, boot), parse, runner, worker, boot);
      }
    }
  }

  /** How a dispatch ends: by its numbers first, and then by how many of its frames could be sent. */
  lemma DispatchEnds(l: Link, parse: Parser, runner: Runner, worker: u64, boot: u64)
    requires l.inbox != [] && Decoded(l.inbox[0]).Some? && Decoded(l.inbox[0]).value.kind.DISPATCH?
    ensures var m, e, rest := Decoded(l.inbox[0]).value, Served(l, parse, runner, worker, boot), l.(inbox := l.inbox[1..]);
            var d := parse(m.payload);
            if d.None? || d.value.chunk == 0 || d.value.total < d.value.resumeFrom then e == Ended(rest, Returned(5))
            else
              var after := Sent(rest, DispatchFrames(m, d.value, runner, worker, boot));
              var increments := |Steps(d.value.total - d.value.resumeFrom, d.value.chunk)|;
              && (l.room < increments ==> e == Ended(after, Returned(6)))
              && (l.room == increments ==> e == Ended(after, Returned(7)))
              && (l.room > increments ==> e == Served(after, parse, runner, worker, boot))
  {
    hide Decoded, Encoded, DispatchFrames, Sent;
    var m := Decoded(l.inbox[0]).value;
    var d := parse(m.payload);
    if d.Some? && Accepts(d.value) {
      FramesOfDispatch(m, d.value, runner, worker, boot);
    }
  }

  lemma FramesOfDispatch(m: Message, d: Descriptor, runner: Runner, worker: u64, boot: u64)
    requires Accepts(d)
    ensures |DispatchFrames(m, d, runner, worker, boot)| == |Steps(d.total - d.resumeFrom, d.chunk)| + 1
  {
    hide DispatchFrames;
    DispatchCarriesSteps(m, d, runner, worker, boot);
  }

  /** A ping is answered by a blank ping, whether or not it can be sent. */
  lemma PingIsAnswered(l: Link, parse: Parser, runner: Runner, worker: u64, boot: u64)
    requires l.inbox != [] && Decoded(l.inbox[0]).Some? && Decoded(l.inbox[0]).value.kind.PING?
    ensures var pong := Encoded(Message(PING, 0, 0, 0, 0, 0, 0, 0, false, false, [], []));
            Served(l, parse, runner, worker, boot) == Served(Sent(l.(inbox := l.inbox[1..]), [pong]), parse, runner, worker, boot)
  {
    hide Decoded, Encoded, DispatchFrames, Sent;
  }

  // ---- The whole session ---------------------------------------------------

  predicate Speaks(frame: Bytes, kinds: set<MsgType>) {
    Decoded(frame).Some? && Decoded(frame).value.kind in kinds
  }

  /** Everything the worker answers with is a ping, a progress report or a completion. */
  lemma AnswerSpeaks(frame: Bytes, parse: Parser, runner: Runner, worker: u64, boot: u64)
    ensures forall a | a in Answer(frame, parse, runner, worker, boot) :: Speaks(a, {PING, PROGRESS, COMPLETE})
  {
    hide Decoded, Encoded, DispatchFrames;
    FrameBack(BLANK);
    if IsDispatch(frame, parse) {
      var m := Decoded(frame).value;
      var d := parse(m.payload).value;
      var frames, steps := DispatchFrames(m, d, runner, worker, boot), Steps(d.total - d.resumeFrom, d.chunk);
      DispatchCarriesSteps(m, d, runner, worker, boot);
      forall a | a in frames ensures Speaks(a, {PING, PROGRESS, COMPLETE}) {
        var i :| 0 <= i < |frames| && frames[i] == a;
        if i < |steps| {
          assert Reports(frames[i], m, steps[i]);
        }
      }
    }
  }

  lemma {:induction false} AnswersSpeak(frames: seq<Bytes>, parse: Parser, runner: Runner, worker: u64, boot: u64)
    ensures forall a | a in Answers(frames, parse, runner, worker, boot) :: Speaks(a, {PING, PROGRESS, COMPLETE})
  {
    hide Answer, Speaks;
    if frames != [] {
      AnswerSpeaks(frames[0], parse, runner, worker, boot);
      AnswersSpeak(frames[1..], parse, runner, worker, boot);
    }
  }

  /** A greeting first, and from then on nothing but answers. */
  predicate WellSpoken(out: seq<Bytes>, worker: u64, boot: u64) {
    out != [] ==>
      && Decoded(out[0]) == Some(Message(HELLO, 0, 0, 0, 0, worker, boot, 0, false, false, [], []))
      && forall a | a in out[1..] :: Speaks(a, {PING, PROGRESS, COMPLETE})
  }

  lemma LoopSpeaks(l: Link, parse: Parser, runner: Runner, worker: u64, boot: u64)
    ensures var e := Served(l, parse, runner, worker, boot);
            && l.sent <= e.link.sent
            && e.exit.Returned? && e.exit != Returned(2)
            && forall a | a in e.link.sent[|l.sent|..] :: Speaks(a, {PING, PROGRESS, COMPLETE})
  {
    hide Served, Quiet, Answers, Speaks, IsDispatch, Decoded;
    ServedMeans(l, parse, runner, worker, boot);
    var e := Served(l, parse, runner, worker, boot);
    AnswersSpeak(l.inbox[..|l.inbox| - |e.link.inbox|], parse, runner, worker, boot);
  }

  /**
   * A whole session: it sends a greeting and then only answers, and it ends with code 3 - the peer closed -
   * exactly when the greeting went out, was acknowledged by a well-formed frame, and all that follows is quiet.
   */
  lemma SessionMeans(l: Link, parse: Parser, runner: Runner, worker: u64, boot: u64)
    ensures var e := Session(l, parse, runner, worker, boot);
            && l.sent <= e.link.sent && WellSpoken(e.link.sent[|l.sent|..], worker, boot)
            && (e.exit == Returned(3) <==>
                  && l.room > 0 && l.inbox != [] && Decoded(l.inbox[0]).Some?
                  && Quiet(l.inbox[1..], l.room - 1, parse, runner, worker, boot))
            && (e.exit == Returned(2) <==> l.room == 0 || l.inbox == [])
            && (e.exit.Threw? <==> l.room > 0 && l.inbox != [] && Decoded(l.inbox[0]).None?)
  {
    hide Decoded, Encoded, Served, Quiet, Answers, Speaks, EndedBy;
    var hello := Encoded(Hello(worker, boot));
    FrameBack(Hello(worker, boot));
    var greeted := Sent(l, [hello]);
    if l.room > 0 && l.inbox != [] && Decoded(l.inbox[0]).Some? {
      var rest := greeted.(inbox := greeted.inbox[1..]);
      var e := Served(rest, parse, runner, worker, boot);
      ServedMeans(rest, parse, runner, worker, boot);
      LoopSpeaks(rest, parse, runner, worker, boot);
      assert rest.sent == l.sent + [hello];
      assert e.link.sent[|l.sent|..][1..] == e.link.sent[|rest.sent|..];
      assert e.link.sent[|l.sent|] == rest.sent[|l.sent|] == hello;
    } else if l.room > 0 {
      assert greeted.sent[|l.sent|..] == [hello];
    }
  }
}

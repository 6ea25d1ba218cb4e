/** The worker's session loop and its segmented dispatch (src/worker.cpp). */
module Worker {
  import opened Basics
  import opened Vocabulary
  import opened Protocol

  /** Units [resumeFrom, total), reported in steps of at most `chunk`. */
  datatype Descriptor = Descriptor(total: u64, resumeFrom: u64, chunk: u64)

  /** What parse demands of the three numbers. */
  predicate Accepts(d: Descriptor) {
    d.chunk != 0 && d.resumeFrom <= d.total
  }

  // ---- The connection ------------------------------------------------------

  /** Frames still to be received, frames sent, and how many more can be sent before the connection breaks. */
  datatype Link = Link(inbox: seq<Bytes>, sent: seq<Bytes>, room: nat)

  /** Frames go out in order until the connection breaks. */
  function Sent(l: Link, frames: seq<Bytes>): Link {
    var n := if |frames| <= l.room then |frames| else l.room;
    l.(sent := l.sent + frames[..n], room := l.room - n)
  }

  class FramePeer {
    var inbox: seq<Bytes>
    var sent: seq<Bytes>
    var room: nat

    function View(): Link
      reads this
    {
      Link(inbox, sent, room)
    }

    constructor (inbox: seq<Bytes>, room: nat)
      ensures View() == Link(inbox, [], room)
    {
      this.inbox, sent, this.room := inbox, [], room;
    }

    method SendFrame(frame: Bytes) returns (ok: bool)
      modifies this
      ensures View() == Sent(old(View()), [frame])
      ensures ok <==> old(room) > 0
    {
      if room == 0 {
        return false;
      }
      sent := sent + [frame];
      room := room - 1;
      return true;
    }

    method ReceiveFrame() returns (frame: Option<Bytes>)
      modifies this
      ensures frame == if old(inbox) == [] then None else Some(old(inbox)[0])
      ensures View() == old(View()).(inbox := if old(inbox) == [] then [] else old(inbox)[1..])
    {
      if inbox == [] {
        return None;
      }
      frame := Some(inbox[0]);
      inbox := inbox[1..];
    }
  }

  // ---- One dispatch --------------------------------------------------------

  function Least(a: nat, b: nat): nat {
    if a < b then a else b
  }

  /** The increments the worker reports. */
  function Steps(remaining: nat, chunk: nat): seq<nat>
    requires chunk > 0
  {
    if remaining == 0 then [] else [Least(chunk, remaining)] + Steps(remaining - Least(chunk, remaining), chunk)
  }

  function Total(steps: seq<nat>): nat {
    if steps == [] then 0 else steps[0] + Total(steps[1..])
  }

  /** The increments add up to the work left; each is a chunk, except that the last one may be smaller. */
  lemma {:induction false} StepsCover(remaining: nat, chunk: nat)
    requires chunk > 0
    ensures var steps := Steps(remaining, chunk);
            && Total(steps) == remaining
            && (forall i | 0 <= i < |steps| :: 0 < steps[i] <= chunk)
            && (forall i | 0 <= i < |steps| - 1 :: steps[i] == chunk)
            && remaining <= |steps| * chunk < remaining + chunk
    decreases remaining
  {
    if remaining > 0 {
      var step := Least(chunk, remaining);
      var tail := Steps(remaining - step, chunk);
      StepsCover(remaining - step, chunk);
      assert |Steps(remaining, chunk)| * chunk == |tail| * chunk + chunk;
      assert forall i | 0 <= i < |tail| :: Steps(remaining, chunk)[i + 1] == tail[i];
    }
  }

  lemma StepsAddUp(remaining: nat, chunk: nat)
    requires chunk > 0
    ensures Total(Steps(remaining, chunk)) == remaining
    ensures forall i | 0 <= i < |Steps(remaining, chunk)| :: 0 < Steps(remaining, chunk)[i] <= chunk
  {
    hide Steps, Total;
    StepsCover(remaining, chunk);
  }

  type Runner = (nat, nat) -> u64

  /** The 64-bit sum of the runner's results over `n` units. */
  function Computed(runner: Runner, from: nat, n: nat, total: nat): u64 {
    if n == 0 then 0 else Wrap(Computed(runner, from, n - 1, total) + runner(from + n - 1, total))
  }

  lemma SumStep(a: int, b: int, c: int)
    ensures Wrap(Wrap(a + b) + c) == Wrap(a + Wrap(b + c))
  {
    WrapAdds(a + b, c);
    WrapAdds(b + c, a);
    hide Wrap;
  }

  lemma WrapSmall(x: u64)
    ensures Wrap(x) == x
  {
  }

  lemma ComputedNext(runner: Runner, from: nat, n: nat, total: nat)
    ensures Computed(runner, from, n + 1, total) == Wrap(Computed(runner, from, n, total) + runner(from + n, total))
    ensures Computed(runner, from, 0, total) == 0
  {
    hide Wrap;
  }

  /** A resumed segment continues the sum where the first one stopped. */
  lemma {:induction false} SegmentsAdd(runner: Runner, from: nat, n: nat, m: nat, total: nat)
    ensures Computed(runner, from, n + m, total) == Wrap(Computed(runner, from, n, total) + Computed(runner, from + n, m, total))
  {
    hide Computed, Wrap;
    if m == 0 {
      ComputedNext(runner, from + n, 0, total);
      WrapSmall(Computed(runner, from, n, total));
    } else {
      SegmentsAdd(runner, from, n, m - 1, total);
      ComputedNext(runner, from, n + m - 1, total);
      ComputedNext(runner, from + n, m - 1, total);
      SumStep(Computed(runner, from, n, total), Computed(runner, from + n, m - 1, total), runner(from + n + m - 1, total));
    }
  }

  /** The true sum of the runner's results over `n` units, without wrap-around. */
  function Sum(runner: Runner, from: nat, n: nat, total: nat): nat
    decreases n
  {
    if n == 0 then 0 else runner(from, total) + Sum(runner, from + 1, n - 1, total)
  }

  lemma {:induction false} SumSnoc(runner: Runner, from: nat, n: nat, total: nat)
    ensures Sum(runner, from, n + 1, total) == Sum(runner, from, n, total) + runner(from + n, total)
    decreases n
  {
    if n > 0 {
      SumSnoc(runner, from + 1, n - 1, total);
    }
  }

  /** What the chunks compute is the true sum modulo 2^64. */
  lemma {:induction false} ComputedIsSum(runner: Runner, from: nat, n: nat, total: nat)
    ensures Computed(runner, from, n, total) == Sum(runner, from, n, total) % 0x1_0000_0000_0000_0000
  {
    if n > 0 {
      ComputedIsSum(runner, from, n - 1, total);
      SumSnoc(runner, from, n - 1, total);
      WrapAdds(Sum(runner, from, n - 1, total), runner(from + n - 1, total));
      hide Sum;
    }
  }

  /** Digits are read from the left, each one multiplying what was read before by ten. */
  function ReadDecimal(digits: Bytes): int {
    if digits == [] then 0 else ReadDecimal(digits[..|digits| - 1]) * 10 + digits[|digits| - 1] as int - 0x30
  }

  /** Decimal digits, without leading zeros. */
  predicate IsDecimal(digits: Bytes) {
    digits != [] && (forall i | 0 <= i < |digits| :: '0' as int <= digits[i] <= '9' as int) && (|digits| > 1 ==> digits[0] != '0' as int)
  }

  /** The digits of a number read back as that number. */
  lemma {:induction false} DecimalReadsBack(v: nat)
    ensures IsDecimal(Decimal(v)) && ReadDecimal(Decimal(v)) == v
    ensures v > 0 ==> Decimal(v)[0] != '0' as int
  {
    if v >= 10 {
      DecimalReadsBack(v / 10);
      var init := Decimal(v / 10);
      assert Decimal(v)[..|Decimal(v)| - 1] == init;
      assert v == v / 10 * 10 + v % 10;
    } else {
      assert ReadDecimal([]) == 0;
      assert Decimal(v)[..0] == [];
    }
  }

  function Decimal(v: nat): Bytes {
    if v < 10 then [0x30 + v] else Decimal(v / 10) + [0x30 + v % 10]
  }

  /** Fields every report of a dispatch carries over. */
  function Reply(m: Message, kind: MsgType, worker: u64, boot: u64): Message {
    BLANK.(kind := kind, workloadId := m.workloadId, episodeId := m.episodeId, episodeGen := m.episodeGen,
           workloadGen := m.workloadGen, workerId := worker, bootId := boot)
  }

  function ProgressReport(m: Message, worker: u64, boot: u64, step: nat): Message {
    Reply(m, PROGRESS, worker, boot).(value := step % 0x1_0000_0000_0000_0000, flag1 := true)
  }

  function CompletionReport(m: Message, worker: u64, boot: u64, result: u64): Message {
    Reply(m, COMPLETE, worker, boot).(payload := Decimal(result))
  }

  function ProgressFrames(m: Message, worker: u64, boot: u64, steps: seq<nat>): seq<Bytes> {
    if steps == [] then []
    else [Encoded(ProgressReport(m, worker, boot, steps[0]))] + ProgressFrames(m, worker, boot, steps[1..])
  }

  /** Everything one dispatch makes the worker send: the increments in order, then the result, which no chunk size changes. */
  function DispatchFrames(m: Message, d: Descriptor, runner: Runner, worker: u64, boot: u64): seq<Bytes>
    requires Accepts(d)
  {
    ProgressFrames(m, worker, boot, Steps(d.total - d.resumeFrom, d.chunk))
    + [Encoded(CompletionReport(m, worker, boot, Computed(runner, d.resumeFrom, d.total - d.resumeFrom, d.total)))]
  }

  /** None to go on, otherwise the exit code: 7 when only the completion could not be sent. */
  function DispatchExit(room: nat, frames: nat): Option<nat> {
    if frames <= room then None else if frames == room + 1 then Some(7) else Some(6)
  }

  /** One chunk of units, added to the running sum. */
  method RunUnits(runner: Runner, from: nat, done: nat, step: nat, total: nat, sum: u64) returns (result: u64)
    requires sum == Computed(runner, from, done, total)
    ensures result == Computed(runner, from, done + step, total)
  {
    result := sum;
    var u := 0;
    while u < step
      invariant 0 <= u <= step && result == Computed(runner, from, done + u, total)
    {
      result := Wrap(result + runner(from + done + u, total));
      u := u + 1;
    }
  }

  lemma SentMore(l: Link, out: seq<Bytes>, frame: Bytes)
    requires |out| <= l.room
    ensures Sent(Sent(l, out), [frame]) == Sent(l, out + [frame])
  {
    if |out| < l.room {
      assert l.sent + out + [frame] == l.sent + (out + [frame]);
    } else {
      assert [frame][..0] == [] && (out + [frame])[..|out|] == out;
    }
  }

  /** What follows a frame that could not be sent is not sent either. */
  lemma SentCut(l: Link, out: seq<Bytes>, rest: seq<Bytes>)
    requires |out| >= l.room
    ensures Sent(l, out + rest) == Sent(l, out)
  {
    assert (out + rest)[..l.room] == out[..l.room];
  }

  /** The chunk loop: progress is reported after each step, until all units are done or a frame cannot be sent. */
  method ReportSteps(peer: FramePeer, m: Message, d: Descriptor, runner: Runner, worker: u64, boot: u64)
    returns (ok: bool, result: u64)
    requires Accepts(d)
    modifies peer
    ensures var frames := ProgressFrames(m, worker, boot, Steps(d.total - d.resumeFrom, d.chunk));
            peer.View() == Sent(old(peer.View()), frames) && (ok <==> |frames| <= old(peer.room))
    ensures ok ==> result == Computed(runner, d.resumeFrom, d.total - d.resumeFrom, d.total)
  {
    hide Encoded, ProgressReport, Sent;
    ghost var start, all := peer.View(), ProgressFrames(m, worker, boot, Steps(d.total - d.resumeFrom, d.chunk));
    ghost var out: seq<Bytes> := [];
    var remaining: nat := d.total - d.resumeFrom;
    var reported: nat := 0;
    result := 0;
    SentNone(start);
    while reported < remaining
      invariant reported <= remaining && result == Computed(runner, d.resumeFrom, reported, d.total)
      invariant peer.View() == Sent(start, out) && peer.room + |out| == start.room
      invariant all == out + ProgressFrames(m, worker, boot, Steps(remaining - reported, d.chunk))
    {
      var step := Least(d.chunk, remaining - reported);
      result := RunUnits(runner, d.resumeFrom, reported, step, d.total, result);
      reported := reported + step;
      var frame := EncodeMessage(ProgressReport(m, worker, boot, step));
      ok := peer.SendFrame(frame);
      ghost var rest := ProgressFrames(m, worker, boot, Steps(remaining - reported, d.chunk));
      SentMore(start, out, frame);
      assert all == out + ([frame] + rest) == (out + [frame]) + rest;
      out := out + [frame];
      if !ok {
        SentCut(start, out, rest);
        return;
      }
      RoomAfter(start, out);
    }
    assert all == out;
    return true, result;
  }

  lemma SentNone(l: Link)
    ensures Sent(l, []) == l
  {
    assert l.sent + [] == l.sent;
  }

  lemma RoomAfter(l: Link, out: seq<Bytes>)
    requires |out| <= l.room
    ensures Sent(l, out).room + |out| == l.room
  {
  }

  method ServeDispatch(peer: FramePeer, m: Message, d: Descriptor, runner: Runner, worker: u64, boot: u64) returns (exit: Option<nat>)
    requires Accepts(d)
    modifies peer
    ensures var frames := DispatchFrames(m, d, runner, worker, boot);
            peer.View() == Sent(old(peer.View()), frames) && exit == DispatchExit(old(peer.room), |frames|)
  {
    hide Encoded, CompletionReport, Computed, ProgressFrames, Sent;
    ghost var start, steps := peer.View(), ProgressFrames(m, worker, boot, Steps(d.total - d.resumeFrom, d.chunk));
    var ok, result := ReportSteps(peer, m, d, runner, worker, boot);
    ghost var last := Encoded(CompletionReport(m, worker, boot, Computed(runner, d.resumeFrom, d.total - d.resumeFrom, d.total)));
    if !ok {
      SentCut(start, steps, [last]);
      return Some(6);
    }
    var done := EncodeMessage(CompletionReport(m, worker, boot, result));
    ok := peer.SendFrame(done);
    SentMore(start, steps, done);
    RoomAfter(start, steps);
    return if ok then None else Some(7);
  }

  // ---- The session ---------------------------------------------------------

  /** How runWorker ends: an exit code, or the ProtocolError of a malformed acknowledgement, which nothing catches. */
  datatype Exit = Returned(code: nat) | Threw

  datatype Ended = Ended(link: Link, exit: Exit)

  /** The numbers in a work descriptor text, None when it is not three numbers. */
  type Parser = Bytes -> Option<Descriptor>

  /** What the receive loop does with the frames that arrive until the peer closes. */
  function Served(l: Link, parse: Parser, runner: Runner, worker: u64, boot: u64): Ended
    decreases |l.inbox|
  {
    if l.inbox == [] then Ended(l, Returned(3))
    else
      var m, l := Decoded(l.inbox[0]), l.(inbox := l.inbox[1..]);
      if m.None? then Served(l, parse, runner, worker, boot)
      else
        match m.value.kind
        case SHUTDOWN => Ended(l, Returned(0))
        case PING => Served(Sent(l, [Encoded(BLANK)]), parse, runner, worker, boot)
        case CANCEL => Ended(l, Returned(4))
        case DISPATCH =>
          var d := parse(m.value.payload);
          if d.None? || !Accepts(d.value) then Ended(l, Returned(5))
          else
            var frames := DispatchFrames(m.value, d.value, runner, worker, boot);
            var exit := DispatchExit(l.room, |frames|);
            if exit.Some? then Ended(Sent(l, frames), Returned(exit.value))
            else Served(Sent(l, frames), parse, runner, worker, boot)
        case _ => Served(l, parse, runner, worker, boot)
  }

  function Hello(worker: u64, boot: u64): Message {
    BLANK.(kind := HELLO, workerId := worker, bootId := boot)
  }

  function Session(l: Link, parse: Parser, runner: Runner, worker: u64, boot: u64): Ended {
    var greeted := Sent(l, [Encoded(Hello(worker, boot))]);
    if l.room == 0 then Ended(greeted, Returned(2))
    else if greeted.inbox == [] then Ended(greeted, Returned(2))
    else if Decoded(greeted.inbox[0]).None? then Ended(greeted.(inbox := greeted.inbox[1..]), Threw)
    else Served(greeted.(inbox := greeted.inbox[1..]), parse, runner, worker, boot)
  }

  method Serve(peer: FramePeer, parse: Parser, runner: Runner, worker: u64, boot: u64) returns (exit: Exit)
    modifies peer
    ensures Ended(peer.View(), exit) == Served(old(peer.View()), parse, runner, worker, boot)
  {
    hide Encoded, Decoded, DispatchFrames, Sent;
    ghost var start := peer.View();
    while true
      invariant Served(peer.View(), parse, runner, worker, boot) == Served(start, parse, runner, worker, boot)
      decreases |peer.inbox|
    {
      SentKeepsInbox(peer.View().(inbox := if peer.inbox == [] then [] else peer.inbox[1..]));
      var frame := peer.ReceiveFrame();
      if frame.None? {
        return Returned(3);
      }
      var m := DecodeMessage(frame.value);
      if m.Some? {
        if m.value.kind == SHUTDOWN {
          return Returned(0);
        } else if m.value.kind == PING {
          var pong := EncodeMessage(BLANK);
          var _ := peer.SendFrame(pong);
        } else if m.value.kind == CANCEL {
          return Returned(4);
        } else if m.value.kind == DISPATCH {
          var d := parse(m.value.payload);
          if d.None? || !Accepts(d.value) {
            return Returned(5);
          }
          var stop := ServeDispatch(peer, m.value, d.value, runner, worker, boot);
          if stop.Some? {
            return Returned(stop.value);
          }
        }
      }
    }
  }

  lemma SentKeepsInbox(l: Link)
    ensures forall frames {:trigger Sent(l, frames)} :: Sent(l, frames).inbox == l.inbox
  {
  }

  method RunWorker(peer: FramePeer, parse: Parser, runner: Runner, worker: u64, boot: u64) returns (exit: Exit)
    modifies peer
    ensures Ended(peer.View(), exit) == Session(old(peer.View()), parse, runner, worker, boot)
  {
    hide Encoded, Decoded, Served;
    var hello := EncodeMessage(Hello(worker, boot));
    var ok := peer.SendFrame(hello);
    if !ok {
      return Returned(2);
    }
    var frame := peer.ReceiveFrame();
    if frame.None? {
      return Returned(2);
    }
    var ack := DecodeMessage(frame.value);
    if ack.None? {
      return Threw;
    }
    exit := Serve(peer, parse, runner, worker, boot);
  }
}

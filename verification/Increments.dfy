/** Arithmetic of a dispatch's increments against a limit: when they are counted in order. */
module Increments {
  import opened Worker

  /** The units one increment stands for. */
  function Units(from: nat, n: nat): seq<nat> {
    seq(n, i => from + i)
  }

  /** The units counted are 0, 1, 2, ... in order, as many as are completed. */
  predicate CountsUp(counted: seq<nat>, completed: nat) {
    |counted| == completed && forall i | 0 <= i < |counted| :: counted[i] == i
  }

  predicate AllAbove(steps: seq<nat>, room: int) {
    forall i | 0 <= i < |steps| :: steps[i] > room
  }

  /** Once an increment does not fit, none of the later ones fits either. */
  predicate StopsForGood(steps: seq<nat>, room: int) {
    steps == [] || if steps[0] <= room then StopsForGood(steps[1..], room - steps[0]) else AllAbove(steps, room)
  }

  /** What a caller can check before dispatching `n` units in chunks to a count with `room` left. */
  predicate InOrder(n: nat, chunk: nat, room: nat)
    requires chunk > 0
  {
    n <= room || n % chunk == 0 || n % chunk > room % chunk
  }

  // ---- The condition is exact ----------------------------------------------

  lemma {:induction false} OneMore(d: nat, q: nat, e: nat)
    requires q > e
    ensures d * q >= d * e + d
  {
    if q - 1 > e {
      OneMore(d, q - 1, e);
    }
    assert d * q == d * (q - 1) + d;
  }

  lemma SameRemainder(d: nat, q: nat, r: nat, e: nat, s: nat)
    requires d * q + r == d * e + s && r < d && s < d
    ensures r == s
  {
    if q > e {
      OneMore(d, q, e);
    } else if e > q {
      OneMore(d, e, q);
    }
  }

  lemma ChunkLess(n: nat, c: nat)
    requires 0 < c <= n
    ensures (n - c) % c == n % c
  {
    var q, r, e, s := n / c, n % c, (n - c) / c, (n - c) % c;
    assert n == c * q + r && n - c == c * e + s;
    assert c * (e + 1) == c * e + c;
    SameRemainder(c, q, r, e + 1, s);
  }

  lemma SmallRemainder(n: nat, c: nat)
    requires n < c
    ensures n % c == n
  {
  }

  lemma AboveCons(x: nat, tail: seq<nat>, room: int)
    ensures AllAbove([x] + tail, room) <==> x > room && AllAbove(tail, room)
  {
    assert ([x] + tail)[0] == x;
    assert forall i | 0 <= i < |tail| :: ([x] + tail)[i + 1] == tail[i];
  }

  /** With less room than a chunk, all increments are above it exactly when the last, shorter one is. */
  lemma {:induction false} AllAboveIff(n: nat, c: nat, room: nat)
    requires c > room
    ensures AllAbove(Steps(n, c), room) <==> n % c == 0 || n % c > room
    decreases n
  {
    if n < c {
      SmallRemainder(n, c);
      if n > 0 {
        assert Steps(n, c) == [n];
        assert Steps(n, c)[0] == n;
      }
    } else {
      AllAboveIff(n - c, c, room);
      ChunkLess(n, c);
      AboveCons(c, Steps(n - c, c), room);
      assert Steps(n, c) == [c] + Steps(n - c, c);
      hide AllAbove, Steps;
    }
  }

  /** The condition says exactly that the increments of the dispatch stop for good. */
  lemma {:induction false} InOrderIff(n: nat, c: nat, room: nat)
    requires c > 0
    ensures StopsForGood(Steps(n, c), room) <==> InOrder(n, c, room)
    decreases n
  {
    if n < c {
      SmallRemainder(n, c);
      if n > 0 {
        assert Steps(n, c) == [n];
        if room < n {
          SmallRemainder(room, c);
        }
      }
    } else {
      assert Steps(n, c) == [c] + Steps(n - c, c);
      ChunkLess(n, c);
      if c <= room {
        ChunkLess(room, c);
        InOrderIff(n - c, c, room - c);
        assert Steps(n, c)[1..] == Steps(n - c, c);
      } else {
        SmallRemainder(room, c);
        AllAboveIff(n, c, room);
      }
    }
  }

  // ---- Counting one stream of increments against a limit ---------------------

  datatype Tally = Tally(completed: nat, counted: seq<nat>)

  /** Increments standing for the units from `pos` on; each is counted when it fits. */
  function Tallied(t: Tally, pos: nat, steps: seq<nat>, limit: nat): Tally
    decreases |steps|
  {
    if steps == [] then t
    else if t.completed + steps[0] <= limit
    then Tallied(Tally(t.completed + steps[0], t.counted + Units(pos, steps[0])), pos + steps[0], steps[1..], limit)
    else Tallied(t, pos + steps[0], steps[1..], limit)
  }

  lemma {:induction false} TallyOnlyGrows(t: Tally, pos: nat, steps: seq<nat>, limit: nat)
    ensures t.counted <= Tallied(t, pos, steps, limit).counted
    decreases |steps|
  {
    if steps != [] {
      if t.completed + steps[0] <= limit {
        TallyOnlyGrows(Tally(t.completed + steps[0], t.counted + Units(pos, steps[0])), pos + steps[0], steps[1..], limit);
      } else {
        TallyOnlyGrows(t, pos + steps[0], steps[1..], limit);
      }
    }
  }

  predicate AllPositive(steps: seq<nat>) {
    forall i | 0 <= i < |steps| :: steps[i] > 0
  }

  /** After a gap, counting anything more breaks the order. */
  lemma {:induction false} GapIsNeverFilled(t: Tally, pos: nat, steps: seq<nat>, limit: nat)
    requires CountsUp(t.counted, t.completed) && pos > t.completed && AllPositive(steps)
    ensures var u := Tallied(t, pos, steps, limit); CountsUp(u.counted, u.completed) <==> AllAbove(steps, limit - t.completed)
    ensures AllAbove(steps, limit - t.completed) ==> Tallied(t, pos, steps, limit) == t
    decreases |steps|
  {
    if steps != [] {
      if t.completed + steps[0] <= limit {
        var next := Tally(t.completed + steps[0], t.counted + Units(pos, steps[0]));
        TallyOnlyGrows(next, pos + steps[0], steps[1..], limit);
        assert next.counted[|t.counted|] == pos;
      } else {
        GapIsNeverFilled(t, pos + steps[0], steps[1..], limit);
        assert forall i | 1 <= i < |steps| :: steps[i] == steps[1..][i - 1];
      }
    }
  }

  /** Increments that start where the count stands are counted in order exactly when they stop for good. */
  lemma {:induction false} TalliedInOrderIff(t: Tally, steps: seq<nat>, limit: nat)
    requires CountsUp(t.counted, t.completed) && AllPositive(steps) && t.completed <= limit
    ensures var u := Tallied(t, t.completed, steps, limit);
            CountsUp(u.counted, u.completed) <==> StopsForGood(steps, limit - t.completed)
    decreases |steps|
  {
    if steps != [] {
      if t.completed + steps[0] <= limit {
        TalliedInOrderIff(Tally(t.completed + steps[0], t.counted + Units(t.completed, steps[0])), steps[1..], limit);
      } else {
        GapIsNeverFilled(t, t.completed + steps[0], steps[1..], limit);
        assert forall i | 1 <= i < |steps| :: steps[i] == steps[1..][i - 1];
      }
    }
  }
}

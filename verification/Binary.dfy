/** Bounded big-endian reads and writes, and the record hash (include/workload_fabric/detail/binary.hpp). */
module Binary {
  import opened Basics

  /**
   * What reading a value from the bytes still unread gives. `Reject` is a returned rejection, `Short` the
   * CodecError thrown when bytes run out, `Escape` the out_of_range error raised inside a noexcept setter.
   */
  datatype Res<+T> = Ok(value: T, rest: Bytes) | Reject | Short | Escape {
    predicate IsFailure() {
      !Ok?
    }

    function PropagateFailure<U>(): Res<U>
      requires IsFailure()
    {
      match this
      case Reject => Reject
      case Short => Short
      case Escape => Escape
    }

    function Extract(): (T, Bytes)
      requires Ok?
    {
      (value, rest)
    }

    /** The same reading when `more` follows the unread bytes. */
    function Before(more: Bytes): Res<T> {
      if Ok? then Ok(value, rest + more) else this
    }
  }

  /** Reading `short` either ran out of bytes or read just what it would read from the longer input. */
  ghost predicate Stable<T>(short: Res<T>, long: Res<T>, more: Bytes) {
    short.Short? || long == short.Before(more)
  }

  // ---- Big-endian numbers --------------------------------------------------

  function Pow256(n: nat): (p: nat)
    ensures p > 0
  {
    if n == 0 then 1 else 256 * Pow256(n - 1)
  }

  function ToBE(v: nat, n: nat): (b: Bytes)
    ensures |b| == n
  {
    if n == 0 then [] else ToBE(v / 256, n - 1) + [v % 256]
  }

  function FromBE(b: Bytes): (v: nat)
    ensures v < Pow256(|b|)
  {
    if b == [] then 0 else FromBE(b[..|b| - 1]) * 256 + b[|b| - 1]
  }

  lemma {:induction false} FromToBE(v: nat, n: nat)
    requires v < Pow256(n)
    ensures FromBE(ToBE(v, n)) == v
  {
    if n > 0 {
      FromToBE(v / 256, n - 1);
      assert ToBE(v, n)[..n - 1] == ToBE(v / 256, n - 1);
    }
  }

  lemma {:induction false} ToFromBE(b: Bytes)
    ensures ToBE(FromBE(b), |b|) == b
  {
    if b != [] {
      ToFromBE(b[..|b| - 1]);
      var hi, lo := FromBE(b[..|b| - 1]), b[|b| - 1];
      assert (hi * 256 + lo) / 256 == hi && (hi * 256 + lo) % 256 == lo;
    }
  }

  lemma Powers()
    ensures Pow256(1) == 256 && Pow256(4) == TWO32 && Pow256(8) == TWO64
  {
    assert Pow256(2) == 0x1_0000 && Pow256(3) == 0x100_0000;
    assert Pow256(5) == 0x100_0000_0000 && Pow256(6) == 0x1_0000_0000_0000 && Pow256(7) == 0x100_0000_0000_0000;
  }

  // ---- What one write puts before the bytes `k` that follow ------------------

  function PutU8(v: byte, k: Bytes): Bytes {
    [v] + k
  }

  function PutU32(v: u32, k: Bytes): Bytes {
    ToBE(v, 4) + k
  }

  function PutU64(v: u64, k: Bytes): Bytes {
    ToBE(v, 8) + k
  }

  function PutBool(v: bool, k: Bytes): Bytes {
    PutU8(if v then 1 else 0, k)
  }

  function PutStr(s: Bytes, k: Bytes): Bytes {
    PutU64(Wrap(|s|), s + k)
  }

  /** An enumerator is written as its position in the numeric order. */
  function IndexOf<T(==)>(all: seq<T>, x: T): (i: nat)
    ensures i <= |all|
    ensures x in all ==> i < |all| && all[i] == x
  {
    if all == [] || all[0] == x then 0 else 1 + IndexOf(all[1..], x)
  }

  function PutEnum<T(==)>(all: seq<T>, x: T, k: Bytes): Bytes
    requires |all| < 256
  {
    PutU8(IndexOf(all, x), k)
  }

  /** Two's complement. */
  function I32ToU64(v: i32): u64 {
    Wrap(v)
  }

  function U64ToI32(v: u64): i32 {
    var low := v % 0x1_0000_0000;
    if low < 0x8000_0000 then low else low - 0x1_0000_0000
  }

  // ---- What one read takes from the unread bytes -----------------------------

  function GetU8(s: Bytes): Res<byte> {
    if |s| < 1 then Short else Ok(s[0], s[1..])
  }

  function GetU32(s: Bytes): Res<u32> {
    if |s| < 4 then Short
    else
      Powers();
      Ok(FromBE(s[..4]), s[4..])
  }

  function GetU64(s: Bytes): Res<u64> {
    if |s| < 8 then Short
    else
      Powers();
      Ok(FromBE(s[..8]), s[8..])
  }

  function GetBool(s: Bytes): Res<bool> {
    if |s| < 1 then Short else Ok(s[0] != 0, s[1..])
  }

  function GetStr(s: Bytes): Res<Bytes> {
    var (n, s) :- GetU64(s);
    if n > |s| then Short else Ok(s[..n], s[n..])
  }

  /** Values past the last enumerator are rejected. */
  function GetEnum<T>(all: seq<T>, s: Bytes): Res<T> {
    if |s| < 1 then Short
    else if s[0] as int >= |all| then Reject
    else Ok(all[s[0]], s[1..])
  }

  /** Every read takes back what the matching write put. */
  lemma ReadsUndoWrites()
    ensures forall v: byte, k {:trigger GetU8(PutU8(v, k))} :: GetU8(PutU8(v, k)) == Ok(v, k)
    ensures forall v: u32, k {:trigger GetU32(PutU32(v, k))} :: GetU32(PutU32(v, k)) == Ok(v, k)
    ensures forall v: u64, k {:trigger GetU64(PutU64(v, k))} :: GetU64(PutU64(v, k)) == Ok(v, k)
    ensures forall v, k {:trigger GetBool(PutBool(v, k))} :: GetBool(PutBool(v, k)) == Ok(v, k)
    ensures forall v: Bytes, k {:trigger GetStr(PutStr(v, k))} :: |v| < TWO64 ==> GetStr(PutStr(v, k)) == Ok(v, k)
  {
    hide PutU32, GetU32, PutU64, GetU64, PutStr, GetStr;
    forall v: u32, k { U32Back(v, k); }
    forall v: u64, k { U64Back(v, k); }
    forall v: Bytes, k | |v| < TWO64 { StrBack(v, k); }
  }

  lemma U32Back(v: u32, k: Bytes)
    ensures GetU32(PutU32(v, k)) == Ok(v, k)
  {
    hide ToBE, FromBE;
    NumberBack(v, 4, k);
  }

  lemma U64Back(v: u64, k: Bytes)
    ensures GetU64(PutU64(v, k)) == Ok(v, k)
  {
    hide ToBE, FromBE;
    NumberBack(v, 8, k);
  }

  lemma StrBack(v: Bytes, k: Bytes)
    requires |v| < TWO64
    ensures GetStr(PutStr(v, k)) == Ok(v, k)
  {
    hide PutU64, GetU64;
    U64Back(|v|, v + k);
    assert (v + k)[..|v|] == v && (v + k)[|v|..] == k;
  }

  lemma NumberBack(v: nat, n: nat, k: Bytes)
    requires v < Pow256(n) || (n == 4 && v < TWO32) || (n == 8 && v < TWO64)
    ensures var s := ToBE(v, n) + k; FromBE(s[..n]) == v && s[n..] == k
  {
    Powers();
    FromToBE(v, n);
    var s := ToBE(v, n) + k;
    assert s[..n] == ToBE(v, n) && s[n..] == k;
  }

  ghost predicate Lists<T(!new)>(all: seq<T>) {
    |all| < 256 && forall x: T :: x in all
  }

  /** Enumerators come back as written, and reading one looks at one byte only. */
  lemma EnumLaws<T(!new)>(all: seq<T>)
    requires Lists(all)
    ensures forall x: T, k {:trigger PutEnum(all, x, k)} :: GetEnum(all, PutEnum(all, x, k)) == Ok(x, k)
    ensures forall s, m {:trigger GetEnum(all, s + m)} :: Stable(GetEnum(all, s), GetEnum(all, s + m), m)
  {
    forall s: Bytes, m ensures Stable(GetEnum(all, s), GetEnum(all, s + m), m) {
      if |s| >= 1 { assert (s + m)[1..] == s[1..] + m; }
    }
  }

  lemma IntBack(v: i32)
    ensures U64ToI32(I32ToU64(v)) == v
  {
  }

  /** No read looks past what it takes: with more bytes behind, it reads the same. */
  lemma ReadsAreStable()
    ensures forall s, m {:trigger GetU8(s + m)} :: Stable(GetU8(s), GetU8(s + m), m)
    ensures forall s, m {:trigger GetU32(s + m)} :: Stable(GetU32(s), GetU32(s + m), m)
    ensures forall s, m {:trigger GetU64(s + m)} :: Stable(GetU64(s), GetU64(s + m), m)
    ensures forall s, m {:trigger GetBool(s + m)} :: Stable(GetBool(s), GetBool(s + m), m)
    ensures forall s, m {:trigger GetStr(s + m)} :: Stable(GetStr(s), GetStr(s + m), m)
  {
    forall s: Bytes, m ensures Stable(GetU8(s), GetU8(s + m), m) {
      if |s| >= 1 { assert (s + m)[1..] == s[1..] + m; }
    }
    forall s: Bytes, m ensures Stable(GetBool(s), GetBool(s + m), m) {
      if |s| >= 1 { assert (s + m)[1..] == s[1..] + m; }
    }
    forall s: Bytes, m ensures Stable(GetU32(s), GetU32(s + m), m) {
      if |s| >= 4 { assert (s + m)[..4] == s[..4] && (s + m)[4..] == s[4..] + m; }
    }
    forall s: Bytes, m ensures Stable(GetU64(s), GetU64(s + m), m) {
      U64Stable(s, m);
    }
    forall s: Bytes, m ensures Stable(GetStr(s), GetStr(s + m), m) {
      StrStable(s, m);
    }
  }

  lemma U64Stable(s: Bytes, m: Bytes)
    ensures Stable(GetU64(s), GetU64(s + m), m)
  {
    if |s| >= 8 { assert (s + m)[..8] == s[..8] && (s + m)[8..] == s[8..] + m; }
  }

  lemma StrStable(s: Bytes, m: Bytes)
    ensures Stable(GetStr(s), GetStr(s + m), m)
  {
    U64Stable(s, m);
    if |s| >= 8 {
      var n, t := FromBE(s[..8]), s[8..];
      if n <= |t| { assert (t + m)[..n] == t[..n] && (t + m)[n..] == t[n..] + m; }
    }
  }

  // ---- Counted lists ---------------------------------------------------------

  function PutMany<T>(put: (T, Bytes) -> Bytes, xs: seq<T>, k: Bytes): Bytes {
    if xs == [] then k else put(xs[0], PutMany(put, xs[1..], k))
  }

  function GetMany<T>(get: Bytes -> Res<T>, n: nat, s: Bytes): (r: Res<seq<T>>)
    ensures r.Ok? ==> |r.value| == n
  {
    if n == 0 then Ok([], s)
    else
      var (x, s) :- get(s);
      var (xs, s) :- GetMany(get, n - 1, s);
      Ok([x] + xs, s)
  }

  /** `get` undoes `put` on the values it accepts and rejects the others. */
  ghost predicate Undoes<T(!new)>(get: Bytes -> Res<T>, put: (T, Bytes) -> Bytes, sized: T -> bool, good: T -> bool) {
    forall x, k {:trigger put(x, k)} :: sized(x) ==> get(put(x, k)) == if good(x) then Ok(x, k) else Reject
  }

  ghost predicate StableReader<T>(get: Bytes -> Res<T>) {
    forall s, m {:trigger get(s + m)} :: Stable(get(s), get(s + m), m)
  }

  predicate AllOf<T>(xs: seq<T>, p: T -> bool) {
    forall i | 0 <= i < |xs| :: p(xs[i])
  }

  lemma {:induction false} ManyBack<T(!new)>(get: Bytes -> Res<T>, put: (T, Bytes) -> Bytes, sized: T -> bool, good: T -> bool,
                                              xs: seq<T>, k: Bytes)
    requires Undoes(get, put, sized, good) && AllOf(xs, sized)
    ensures GetMany(get, |xs|, PutMany(put, xs, k)) == if AllOf(xs, good) then Ok(xs, k) else Reject
  {
    if xs != [] {
      var rest := xs[1..];
      ManyBack(get, put, sized, good, rest, k);
      var tail := PutMany(put, rest, k);
      assert get(put(xs[0], tail)) == if good(xs[0]) then Ok(xs[0], tail) else Reject;
      assert forall i | 1 <= i < |xs| :: xs[i] == rest[i - 1];
      assert [xs[0]] + rest == xs;
      if !AllOf(xs, good) && good(xs[0]) {
        var i :| 0 <= i < |xs| && !good(xs[i]);
        assert rest[i - 1] == xs[i];
      }
    }
  }

  lemma {:induction false} ManyStable<T>(get: Bytes -> Res<T>, n: nat, s: Bytes, m: Bytes)
    requires StableReader(get)
    ensures Stable(GetMany(get, n, s), GetMany(get, n, s + m), m)
    decreases n
  {
    if n > 0 {
      assert Stable(get(s), get(s + m), m);
      if get(s).Ok? {
        ManyStable(get, n - 1, get(s).rest, m);
      }
    }
  }
}

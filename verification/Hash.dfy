/** The 64-bit FNV-1a hash of a record payload (include/workload_fabric/detail/binary.hpp). */
module Hash {
  import opened Basics

  const FNV_OFFSET: u64 := 0xcbf29ce484222325
  const FNV_PRIME: u64 := 0x100000001b3
  /** FNV_PRIME * FNV_INVERSE == 1 + FNV_CARRY * 2^64. */
  const FNV_INVERSE: int := 0xce965057aff6957b
  const FNV_CARRY: int := 0xce9650590f

  /** The exclusive or of the low `n` bits. */
  function XorBits(a: nat, b: nat, n: nat): nat {
    if n == 0 then 0 else 2 * XorBits(a / 2, b / 2, n - 1) + if a % 2 == b % 2 then 0 else 1
  }

  function TwoTo(n: nat): nat {
    if n == 0 then 1 else 2 * TwoTo(n - 1)
  }

  lemma {:induction false} XorBelow(a: nat, b: nat, n: nat)
    ensures XorBits(a, b, n) < TwoTo(n)
  {
    if n > 0 {
      XorBelow(a / 2, b / 2, n - 1);
    }
  }

  function XorByte(a: byte, b: byte): byte {
    XorBelow(a, b, 8);
    assert TwoTo(8) == 256;
    XorBits(a, b, 8)
  }

  /** The exclusive or changes the low byte of the state only. */
  function Mixed(h: u64, b: byte): u64 {
    hide XorByte;
    h - h % 256 + XorByte(h % 256, b)
  }

  function FnvStep(h: u64, b: byte): u64 {
    Wrap(Mixed(h, b) * FNV_PRIME)
  }

  function Fnv(s: Bytes): u64 {
    if s == [] then FNV_OFFSET else FnvStep(Fnv(s[..|s| - 1]), s[|s| - 1])
  }

  /** The loop over the bytes of the source computes the recursive definition. */
  method Fnv1a64(p: Bytes) returns (h: u64)
    ensures h == Fnv(p)
  {
    h := FNV_OFFSET;
    var i := 0;
    while i < |p|
      invariant 0 <= i <= |p|
      invariant h == Fnv(p[..i])
    {
      assert p[..i + 1][..i] == p[..i];
      h := Mixed(h, p[i]);
      h := Wrap(h * FNV_PRIME);
      i := i + 1;
    }
    assert p[..i] == p;
  }

  lemma LowBit(a: nat, c: nat, n: nat)
    requires n > 0
    ensures XorBits(a, c, n) / 2 == XorBits(a / 2, c / 2, n - 1)
    ensures XorBits(a, c, n) % 2 == if a % 2 == c % 2 then 0 else 1
  {
    var rest := XorBits(a / 2, c / 2, n - 1);
    assert XorBits(a, c, n) == 2 * rest + if a % 2 == c % 2 then 0 else 1;
    hide XorBits;
  }

  /** Mixing the same number in again takes it out. */
  lemma {:induction false} XorUndone(a: nat, c: nat, n: nat)
    requires a < TwoTo(n)
    ensures XorBits(XorBits(a, c, n), c, n) == a
    ensures XorBits(XorBits(c, a, n), c, n) == a
  {
    if n > 0 {
      XorUndone(a / 2, c / 2, n - 1);
      LowBit(a, c, n);
      LowBit(c, a, n);
    }
  }

  lemma XorInjective(a: byte, b: byte, c: byte)
    ensures XorByte(a, c) == XorByte(b, c) ==> a == b
    ensures XorByte(c, a) == XorByte(c, b) ==> a == b
  {
    assert TwoTo(8) == 256;
    XorUndone(a, c, 8);
    XorUndone(b, c, 8);
    hide XorBits;
  }

  // ---- The exclusive or is the one on 64-bit words ---------------------------

  function Shifted(a: nat, k: nat): nat {
    if k == 0 then a else Shifted(a / 2, k - 1)
  }

  /** Bit by bit: the result has a bit exactly where the two differ. */
  lemma {:induction false} XorIsBitwise(a: nat, b: nat, n: nat, k: nat)
    requires k < n
    ensures Shifted(XorBits(a, b, n), k) % 2 == if Shifted(a, k) % 2 == Shifted(b, k) % 2 then 0 else 1
    decreases n
  {
    LowBit(a, b, n);
    if k > 0 {
      XorIsBitwise(a / 2, b / 2, n - 1, k - 1);
    }
  }

  lemma {:induction false} XorSplits(a: nat, b: nat, k: nat, m: nat)
    ensures XorBits(a, b, k + m) == XorBits(a, b, k) + TwoTo(k) * XorBits(Shifted(a, k), Shifted(b, k), m)
    decreases k
  {
    if k > 0 {
      XorSplits(a / 2, b / 2, k - 1, m);
      var bit, high := if a % 2 == b % 2 then 0 else 1, XorBits(Shifted(a, k), Shifted(b, k), m);
      assert XorBits(a, b, k + m) == 2 * XorBits(a / 2, b / 2, k - 1 + m) + bit;
      assert XorBits(a, b, k) == 2 * XorBits(a / 2, b / 2, k - 1) + bit;
      hide XorBits;
      Doubled(TwoTo(k - 1), high);
    }
  }

  lemma Doubled(p: nat, x: nat)
    ensures 2 * (p * x) == (2 * p) * x
  {
  }

  lemma {:induction false} XorZero(a: nat, n: nat)
    requires a < TwoTo(n)
    ensures XorBits(a, 0, n) == a
  {
    if n > 0 {
      XorZero(a / 2, n - 1);
    }
  }

  /** What stands above the low `n` bits does not matter to them. */
  lemma {:induction false} XorLowBits(low: nat, high: nat, b: nat, n: nat)
    ensures XorBits(low + TwoTo(n) * high, b, n) == XorBits(low, b, n)
    decreases n
  {
    if n > 0 {
      XorLowBits(low / 2, high, b / 2, n - 1);
      Doubled(TwoTo(n - 1), high);
      var x := TwoTo(n - 1) * high;
      assert (low + 2 * x) / 2 == low / 2 + x && (low + 2 * x) % 2 == low % 2;
    }
  }

  lemma {:induction false} TwoToAdds(a: nat, b: nat)
    ensures TwoTo(a + b) == TwoTo(a) * TwoTo(b)
  {
    if a > 0 {
      TwoToAdds(a - 1, b);
      Doubled(TwoTo(a - 1), TwoTo(b));
    }
  }

  lemma TwoToEight()
    ensures TwoTo(8) == 0x100
  {
  }

  lemma Powers64()
    ensures TwoTo(8) == 0x100 && TwoTo(56) == 0x100_0000_0000_0000 && TwoTo(64) == TWO64
  {
    hide TwoTo;
    TwoToEight();
    TwoToAdds(8, 8);
    TwoToAdds(16, 16);
    TwoToAdds(32, 16);
    TwoToAdds(48, 8);
    TwoToAdds(56, 8);
  }

  lemma ShiftedByEight(a: nat)
    ensures Shifted(a, 8) == a / 256
  {
    var b := a / 2 / 2;
    var c := b / 2 / 2;
    var d := c / 2 / 2;
    assert Shifted(a, 8) == Shifted(a / 2, 7) == Shifted(b, 6);
    assert Shifted(b, 6) == Shifted(b / 2, 5) == Shifted(c, 4);
    assert Shifted(c, 4) == Shifted(c / 2, 3) == Shifted(d, 2);
    assert Shifted(d, 2) == Shifted(d / 2, 1) == Shifted(d / 2 / 2, 0);
  }

  /** Mixing a byte in is the exclusive or of the whole 64-bit state with it. */
  lemma MixedIsXor(h: u64, b: byte)
    ensures Mixed(h, b) == XorBits(h, b, 64)
  {
    hide XorBits, TwoTo, Shifted;
    Powers64();
    XorSplits(h, b, 8, 56);
    ShiftedByEight(h);
    ShiftedByEight(b);
    XorZero(h / 256, 56);
    XorLowBits(h % 256, h / 256, b, 8);
    ByteXor(h % 256, b);
  }

  lemma ByteXor(a: byte, b: byte)
    ensures XorByte(a, b) == XorBits(a, b, 8)
  {
  }

  lemma KnownXor()
    ensures XorBits(0x25, 0x61, 8) == 0x44
  {
    assert XorBits(2, 6, 4) == 4 && XorBits(4, 0xc, 5) == 8;
    assert XorBits(0x25, 0x61, 8) == 0x44;
  }

  lemma KnownStep()
    ensures FnvStep(0xcbf2_9ce4_8422_2325, 0x61) == 0xaf63_dc4c_8601_ec8c
  {
    hide XorByte, XorBits;
    KnownXor();
    ByteXor(0x25, 0x61);
    assert Mixed(0xcbf2_9ce4_8422_2325, 0x61) == 0xcbf2_9ce4_8422_2344;
    assert 0xcbf2_9ce4_8422_2344 * FNV_PRIME == 0xcb_f29c_e5de * TWO64 + 0xaf63_dc4c_8601_ec8c;
  }

  /** Published values of FNV-1a: of nothing, and of "a". */
  lemma KnownHashes()
    ensures Fnv([]) == 0xcbf2_9ce4_8422_2325
    ensures Fnv([0x61]) == 0xaf63_dc4c_8601_ec8c
  {
    hide FnvStep;
    KnownStep();
    assert [0x61][..0] == [];
  }

  /** Multiplying by the prime is undone by multiplying by its inverse. */
  lemma Unmultiply(x: u64)
    ensures Wrap(Wrap(x * FNV_PRIME) * FNV_INVERSE) == x
  {
    var q, r := x * FNV_PRIME / TWO64, x * FNV_PRIME % TWO64;
    assert x * FNV_PRIME == q * TWO64 + r;
    assert FNV_PRIME * FNV_INVERSE == 1 + FNV_CARRY * TWO64;
    calc {
      r * FNV_INVERSE;
      (x * FNV_PRIME - q * TWO64) * FNV_INVERSE;
      x * (FNV_PRIME * FNV_INVERSE) - q * TWO64 * FNV_INVERSE;
      x + (x * FNV_CARRY - q * FNV_INVERSE) * TWO64;
    }
    MultipleVanishes(x, x * FNV_CARRY - q * FNV_INVERSE);
  }

  lemma MultipleVanishes(x: u64, k: int)
    ensures Wrap(x + k * TWO64) == x
  {
  }

  /** One step is a bijection of the state, and injective in the byte. */
  lemma StepInjective(h: u64, g: u64, b: byte, c: byte)
    ensures FnvStep(h, b) == FnvStep(g, b) ==> h == g
    ensures FnvStep(h, b) == FnvStep(h, c) ==> b == c
  {
    Unmultiply(Mixed(h, b));
    Unmultiply(Mixed(g, b));
    Unmultiply(Mixed(h, c));
    XorInjective(h % 256, g % 256, b);
    XorInjective(b, c, h % 256);
    MixedParts(h, b);
    MixedParts(g, b);
    MixedParts(h, c);
    hide Wrap, Mixed, XorByte;
  }

  lemma MixedParts(h: u64, b: byte)
    ensures Mixed(h, b) / 256 == h / 256 && Mixed(h, b) % 256 == XorByte(h % 256, b)
  {
  }

  /** Changing any one byte changes the hash. */
  lemma {:induction false} OneByteChangesHash(s: Bytes, i: nat, b: byte)
    requires i < |s| && b != s[i]
    ensures Fnv(s[i := b]) != Fnv(s)
    decreases |s|
  {
    var n, t := |s| - 1, s[i := b];
    if i < n {
      OneByteChangesHash(s[..n], i, b);
      assert t[..n] == s[..n][i := b];
      StepInjective(Fnv(s[..n]), Fnv(t[..n]), s[n], s[n]);
    } else {
      assert t[..n] == s[..n];
      StepInjective(Fnv(s[..n]), Fnv(s[..n]), s[n], b);
    }
    hide FnvStep;
  }
}

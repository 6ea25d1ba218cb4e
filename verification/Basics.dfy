/** Machine words, byte strings and the IEEE comparisons the library performs. */
module Basics {
  const TWO64: int := 0x1_0000_0000_0000_0000
  const TWO63: int := 0x8000_0000_0000_0000
  const TWO32: int := 0x1_0000_0000

  type byte = x: int | 0 <= x < 256
  type u32 = x: int | 0 <= x < 0x1_0000_0000
  type u64 = x: int | 0 <= x < 0x1_0000_0000_0000_0000
  type i32 = x: int | -0x8000_0000 <= x < 0x8000_0000

  /** A C++ std::string or std::vector<uint8_t>: any sequence of bytes. */
  type Bytes = seq<byte>

  datatype Option<+T> = None | Some(value: T)

  /** 64-bit unsigned arithmetic wraps. */
  function Wrap(x: int): u64 {
    x % 0x1_0000_0000_0000_0000
  }

  /** The successor of a generation, revision or counter. */
  function Next(g: u64): u64 {
    Wrap(g + 1)
  }

  lemma WrapAdds(x: int, y: int)
    ensures Wrap(Wrap(x) + y) == Wrap(x + y)
  {
  }

  lemma Associates(a: Bytes, b: Bytes, c: Bytes)
    ensures (a + b) + c == a + (b + c)
  {
  }

  /** The bytes of an ASCII literal. */
  function Ascii(s: string): Bytes {
    seq(|s|, i requires 0 <= i < |s| => (s[i] as int) % 256)
  }

  /** An IEEE-754 binary64 value, kept as its bit pattern. */
  type F64 = u64

  const F64_ZERO: F64 := 0

  function Exponent(d: F64): int {
    (d / 0x10_0000_0000_0000) % 0x800
  }

  function Mantissa(d: F64): int {
    d % 0x10_0000_0000_0000
  }

  predicate IsFinite(d: F64) {
    Exponent(d) != 0x7ff
  }

  predicate IsNaN(d: F64) {
    Exponent(d) == 0x7ff && Mantissa(d) != 0
  }

  /** Non-NaN doubles are ordered as sign-magnitude integers; both zeros have key 0. */
  function OrderKey(d: F64): int {
    if d < TWO63 then d else TWO63 - d
  }

  predicate F64Less(a: F64, b: F64) {
    !IsNaN(a) && !IsNaN(b) && OrderKey(a) < OrderKey(b)
  }

  predicate F64Equal(a: F64, b: F64) {
    !IsNaN(a) && !IsNaN(b) && OrderKey(a) == OrderKey(b)
  }
}

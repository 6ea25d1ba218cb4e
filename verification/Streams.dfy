/** The growing buffer and the bounded cursor of the codec (include/workload_fabric/detail/binary.hpp). */
module Streams {
  import opened Basics
  import opened Binary

  // ---- Writing -------------------------------------------------------------

  /** `v >> (i * 8)`: `i` times one byte further right. */
  function Shifted(v: nat, i: nat): nat {
    if i == 0 then v else Shifted(v, i - 1) / 256
  }

  lemma NextByte(v: nat, i: nat, n: nat)
    requires i < n
    ensures ToBE(Shifted(v, i), n - i) == ToBE(Shifted(v, i + 1), n - i - 1) + [Shifted(v, i) % 256]
  {
  }

  /** The bytes written so far. */
  class Writer {
    var buf: Bytes

    constructor ()
      ensures buf == []
    {
      buf := [];
    }

    method U8(v: byte)
      modifies this
      ensures forall k {:trigger buf + k} :: buf + k == old(buf) + PutU8(v, k)
    {
      buf := buf + [v];
    }

    /** The low `n` bytes of `v`, highest first. */
    method Big(v: u64, n: nat)
      modifies this
      ensures buf == old(buf) + ToBE(v, n)
    {
      hide ToBE;
      ghost var start := buf;
      var i := n;
      assert ToBE(Shifted(v, n), 0) == [];
      while i > 0
        invariant 0 <= i <= n
        invariant buf == start + ToBE(Shifted(v, i), n - i)
      {
        i := i - 1;
        NextByte(v, i, n);
        buf := buf + [Shifted(v, i) % 256];
      }
      assert Shifted(v, 0) == v;
    }

    method U32(v: u32)
      modifies this
      ensures forall k {:trigger buf + k} :: buf + k == old(buf) + PutU32(v, k)
    {
      Big(v, 4);
    }

    method U64(v: u64)
      modifies this
      ensures forall k {:trigger buf + k} :: buf + k == old(buf) + PutU64(v, k)
    {
      Big(v, 8);
    }

    method Bool(v: bool)
      modifies this
      ensures forall k {:trigger buf + k} :: buf + k == old(buf) + PutBool(v, k)
    {
      U8(if v then 1 else 0);
    }

    method Raw(p: Bytes)
      modifies this
      ensures buf == old(buf) + p
    {
      buf := buf + p;
    }

    method Str(s: Bytes)
      modifies this
      ensures forall k {:trigger buf + k} :: buf + k == old(buf) + PutStr(s, k)
    {
      hide PutU64;
      U64(Wrap(|s|));
      ghost var before := buf;
      Raw(s);
      forall k ensures buf + k == before + (s + k) {
      }
    }

    method Enum<T(==)>(all: seq<T>, x: T)
      requires |all| < 256
      modifies this
      ensures forall k {:trigger buf + k} :: buf + k == old(buf) + PutEnum(all, x, k)
    {
      U8(IndexOf(all, x));
    }
  }

  // ---- Reading -------------------------------------------------------------

  datatype Fault = REJECTED | RAN_SHORT | ESCAPED

  /** What a read returns, or how it fails. */
  datatype Read<+T> = Got(value: T) | Failed(fault: Fault) {
    predicate IsFailure() {
      Failed?
    }

    function PropagateFailure<U>(): Read<U>
      requires IsFailure()
    {
      Failed(fault)
    }

    function Extract(): T
      requires Got?
    {
      value
    }
  }

  /** The read did what the specification reads, and left the same bytes unread. */
  ghost predicate Follows<T>(r: Read<T>, left: Bytes, spec: Res<T>) {
    match spec
    case Ok(value, rest) => r == Got(value) && left == rest
    case Reject => r == Failed(REJECTED)
    case Short => r == Failed(RAN_SHORT)
    case Escape => r == Failed(ESCAPED)
  }

  /** A cursor over bytes; it never moves past their end. */
  class Reader {
    const data: Bytes
    var pos: nat

    ghost predicate Valid()
      reads this
    {
      pos <= |data|
    }

    function Rest(): Bytes
      requires Valid()
      reads this
    {
      data[pos..]
    }

    constructor (data: Bytes)
      ensures Valid() && Rest() == data && fresh(this)
    {
      this.data := data;
      pos := 0;
    }

    method Remaining() returns (n: nat)
      requires Valid()
      ensures n == |Rest()|
    {
      n := |data| - pos;
    }

    method Empty() returns (b: bool)
      requires Valid()
      ensures b <==> Rest() == []
    {
      b := pos >= |data|;
    }

    method U8() returns (r: Read<byte>)
      requires Valid()
      modifies this
      ensures Valid() && Follows(r, Rest(), GetU8(old(Rest())))
    {
      if 1 > |data| - pos {
        return Failed(RAN_SHORT);
      }
      pos := pos + 1;
      return Got(data[pos - 1]);
    }

    /** `n` bytes, highest first: `(r << 8) | b` is `r * 256 + b`. */
    method Big(n: nat) returns (v: nat)
      requires Valid() && n <= |Rest()|
      modifies this
      ensures Valid() && Rest() == old(Rest())[n..] && v == FromBE(old(Rest())[..n])
    {
      ghost var s := Rest();
      v := 0;
      var i := 0;
      while i < n
        invariant 0 <= i <= n && Valid() && Rest() == s[i..]
        invariant v == FromBE(s[..i])
      {
        assert s[..i + 1][..i] == s[..i];
        assert data[pos] == s[i];
        v := v * 256 + data[pos];
        pos := pos + 1;
        i := i + 1;
      }
    }

    method U32() returns (r: Read<u32>)
      requires Valid()
      modifies this
      ensures Valid() && Follows(r, Rest(), GetU32(old(Rest())))
    {
      if 4 > |data| - pos {
        return Failed(RAN_SHORT);
      }
      var v := Big(4);
      Powers();
      return Got(v);
    }

    method U64() returns (r: Read<u64>)
      requires Valid()
      modifies this
      ensures Valid() && Follows(r, Rest(), GetU64(old(Rest())))
    {
      if 8 > |data| - pos {
        return Failed(RAN_SHORT);
      }
      var v := Big(8);
      Powers();
      return Got(v);
    }

    method Bool() returns (r: Read<bool>)
      requires Valid()
      modifies this
      ensures Valid() && Follows(r, Rest(), GetBool(old(Rest())))
    {
      var b :- U8();
      return Got(b != 0);
    }

    /** The next `n` bytes. */
    method Raw(n: nat) returns (r: Read<Bytes>)
      requires Valid()
      modifies this
      ensures Valid()
      ensures Follows(r, Rest(), if n > |old(Rest())| then Short else Ok(old(Rest())[..n], old(Rest())[n..]))
    {
      if n > |data| - pos {
        return Failed(RAN_SHORT);
      }
      ghost var s := Rest();
      pos := pos + n;
      assert data[pos - n..pos] == s[..n];
      return Got(data[pos - n..pos]);
    }

    /** A length that exceeds the bytes left is an error before anything is copied. */
    method Str() returns (r: Read<Bytes>)
      requires Valid()
      modifies this
      ensures Valid() && Follows(r, Rest(), GetStr(old(Rest())))
    {
      hide GetU64;
      var n :- U64();
      r := Raw(n);
    }

    method Enum<T>(all: seq<T>) returns (r: Read<T>)
      requires Valid()
      modifies this
      ensures Valid() && Follows(r, Rest(), GetEnum(all, old(Rest())))
    {
      var v :- U8();
      if v as int >= |all| {
        return Failed(REJECTED);
      }
      return Got(all[v]);
    }
  }
}

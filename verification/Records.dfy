/** The framed, checksummed record of one workload (src/persistence.cpp). */
module Records {
  import opened Basics
  import opened Vocabulary
  import opened ProgressModel
  import opened Dependencies
  import opened Resources
  import opened Model
  import opened Binary
  import opened Hash
  import opened Codec
  import opened CodecLaws
  import opened Payloads

  const MAGIC: u32 := 0x57464252
  const FORMAT_VERSION: u32 := 1

  /** Everything before the payload. */
  function Prologue(n: u64, k: Bytes): Bytes {
    PutU32(MAGIC, PutU32(FORMAT_VERSION, PutU64(n, k)))
  }

  /** The payload and its checksum. */
  function Sealed(payload: Bytes, k: Bytes): Bytes {
    payload + PutU64(Fnv(payload), k)
  }

  function Frame(payload: Bytes): Bytes {
    Prologue(Wrap(|payload|), Sealed(payload, []))
  }

  function EncodeRecord(w: Workload): Bytes {
    Frame(Payload(w))
  }

  function ReadPrologue(s: Bytes): Res<u64> {
    var (magic, s) :- GetU32(s);
    if magic != MAGIC then Reject
    else
      var (version, s) :- GetU32(s);
      if version != FORMAT_VERSION then Reject else GetU64(s)
  }

  /** The payload of a record whose length and checksum agree with it; bytes after the checksum are not looked at. */
  function Unframe(s: Bytes): Res<Bytes> {
    var (n, s) :- ReadPrologue(s);
    if n > |s| then Reject
    else
      var payload := s[..n];
      var (stored, s) :- GetU64(s[n..]);
      if stored != Fnv(payload) then Reject else Ok(payload, s)
  }

  function ReadRecord(s: Bytes): Res<Workload> {
    var (payload, _) :- Unframe(s);
    DecodePayload(payload)
  }

  /** `Terminated` stands for an error nothing catches. */
  datatype Decoded = Decoded(status: Outcome, workload: Option<Workload>) | Terminated

  /** A codec error is caught and reported as REJECT_UNKNOWN, like every other rejection. */
  function DecodeRecord(s: Bytes): Decoded {
    match ReadRecord(s)
    case Ok(w, _) => Decoded(ALLOW, Some(w))
    case Reject => Decoded(REJECT_UNKNOWN, None)
    case Short => Decoded(REJECT_UNKNOWN, None)
    case Escape => Terminated
  }

  predicate Refused(s: Bytes) {
    DecodeRecord(s) == Decoded(REJECT_UNKNOWN, None)
  }

  // ---- A record is its frame -----------------------------------------------

  lemma NumbersAreTheirBytes(s: Bytes)
    ensures GetU32(s).Ok? ==> s == PutU32(GetU32(s).value, GetU32(s).rest)
    ensures GetU64(s).Ok? ==> s == PutU64(GetU64(s).value, GetU64(s).rest)
  {
    if |s| >= 4 {
      ToFromBE(s[..4]);
    }
    if |s| >= 8 {
      ToFromBE(s[..8]);
    }
  }

  lemma PrologueIff(s: Bytes, n: u64, k: Bytes)
    ensures ReadPrologue(s) == Ok(n, k) <==> s == Prologue(n, k)
  {
    hide GetU32, GetU64, PutU32, PutU64;
    if s == Prologue(n, k) {
      ReadsUndoWrites();
    }
    if ReadPrologue(s) == Ok(n, k) {
      NumbersAreTheirBytes(s);
      NumbersAreTheirBytes(GetU32(s).rest);
      NumbersAreTheirBytes(GetU32(GetU32(s).rest).rest);
    }
  }

  lemma TrailerIff(s: Bytes, payload: Bytes, rest: Bytes)
    requires |payload| <= |s|
    ensures s[..|payload|] == payload && GetU64(s[|payload|..]) == Ok(Fnv(payload), rest) <==> s == Sealed(payload, rest)
  {
    hide GetU64, PutU64, Fnv;
    var n := |payload|;
    if s == Sealed(payload, rest) {
      ReadsUndoWrites();
      assert s[n..] == PutU64(Fnv(payload), rest);
    }
    NumbersAreTheirBytes(s[n..]);
    assert s == s[..n] + s[n..];
  }

  lemma NumbersBefore(v: u32, n: u64, k: Bytes, rest: Bytes)
    ensures PutU32(v, k) + rest == PutU32(v, k + rest) && PutU64(n, k) + rest == PutU64(n, k + rest)
  {
    hide ToBE;
    assert ToBE(v, 4) + k + rest == ToBE(v, 4) + (k + rest);
    assert ToBE(n, 8) + k + rest == ToBE(n, 8) + (k + rest);
  }

  lemma PrologueBefore(n: u64, k: Bytes, rest: Bytes)
    ensures Prologue(n, k) + rest == Prologue(n, k + rest)
  {
    hide PutU32, PutU64;
    NumbersBefore(0, n, k, rest);
    NumbersBefore(FORMAT_VERSION, 0, PutU64(n, k), rest);
    NumbersBefore(MAGIC, 0, PutU32(FORMAT_VERSION, PutU64(n, k)), rest);
  }

  lemma TrailerBefore(h: u64, rest: Bytes)
    ensures PutU64(h, []) + rest == PutU64(h, rest)
  {
    hide PutU64;
    NumbersBefore(0, h, [], rest);
    assert [] + rest == rest;
  }

  lemma SealedBefore(payload: Bytes, rest: Bytes)
    ensures Sealed(payload, []) + rest == Sealed(payload, rest)
  {
    hide Fnv, PutU64;
    Associates(payload, PutU64(Fnv(payload), []), rest);
    TrailerBefore(Fnv(payload), rest);
  }

  lemma FrameBefore(payload: Bytes, rest: Bytes)
    requires |payload| < TWO64
    ensures Frame(payload) + rest == Prologue(|payload|, Sealed(payload, rest))
  {
    hide Prologue, Sealed;
    PrologueBefore(|payload|, Sealed(payload, []), rest);
    SealedBefore(payload, rest);
  }

  lemma UnframeOfFrame(payload: Bytes, rest: Bytes)
    requires |payload| < TWO64
    ensures Unframe(Frame(payload) + rest) == Ok(payload, rest)
  {
    hide Frame, Prologue, ReadPrologue, GetU64, Sealed, Fnv;
    var body := Sealed(payload, rest);
    SealedLength(payload, rest);
    FrameBefore(payload, rest);
    PrologueIff(Prologue(|payload|, body), |payload|, body);
    TrailerIff(body, payload, rest);
  }

  lemma SealedLength(payload: Bytes, rest: Bytes)
    ensures |Sealed(payload, rest)| == |payload| + 8 + |rest|
  {
  }

  /** Reading a frame gives `payload` exactly when the bytes start with the frame of `payload`. */
  lemma UnframeIff(s: Bytes, payload: Bytes, rest: Bytes)
    requires |payload| < TWO64
    ensures Unframe(s) == Ok(payload, rest) <==> s == Frame(payload) + rest
  {
    hide Frame, Prologue, ReadPrologue, GetU64, Sealed, Fnv;
    UnframeOfFrame(payload, rest);
    if Unframe(s) == Ok(payload, rest) {
      var k := ReadPrologue(s).rest;
      PrologueIff(s, |payload|, k);
      TrailerIff(k, payload, rest);
      FrameBefore(payload, rest);
    }
  }

  // ---- Layout --------------------------------------------------------------

  /** Where the parts of a frame stand. */
  lemma Layout(payload: Bytes)
    requires |payload| < TWO64
    ensures var f, n := Frame(payload), |payload|;
            && |f| == n + 24
            && f[..8] == ToBE(MAGIC, 4) + ToBE(FORMAT_VERSION, 4) && f[8..16] == ToBE(n, 8)
            && f[16..16 + n] == payload && f[16 + n..] == ToBE(Fnv(payload), 8)
  {
    hide Fnv, ToBE;
    var m, v, n, h := ToBE(MAGIC, 4), ToBE(FORMAT_VERSION, 4), ToBE(|payload|, 8), ToBE(Fnv(payload), 8);
    assert h + [] == h;
    assert Frame(payload) == m + (v + (n + (payload + h)));
    LayoutOf(m, v, n, payload, h);
  }

  lemma LayoutOf(m: Bytes, v: Bytes, n: Bytes, p: Bytes, h: Bytes)
    requires |m| == |v| == 4 && |n| == |h| == 8
    ensures var f := m + (v + (n + (p + h)));
            |f| == |p| + 24 && f[..8] == m + v && f[8..16] == n && f[16..16 + |p|] == p && f[16 + |p|..] == h
  {
  }

  lemma SameNumber(a: u64, b: u64)
    ensures ToBE(a, 8) == ToBE(b, 8) <==> a == b
  {
    Powers();
    FromToBE(a, 8);
    FromToBE(b, 8);
    hide ToBE, FromBE;
  }

  // ---- Corruption ----------------------------------------------------------

  /** No other frame of the same length is one byte away. */
  lemma FramesFarApart(p: Bytes, q: Bytes, i: nat, b: byte)
    requires |p| == |q| < TWO64 && i < |Frame(p)| && Frame(p)[i] != b
    ensures Frame(p)[i := b] != Frame(q)
  {
    hide Frame, ToBE, Fnv;
    Layout(p);
    Layout(q);
    SameNumber(Fnv(p), Fnv(q));
    var f, n := Frame(p), |p|;
    var g := f[i := b];
    if i < 8 {
      assert g[..8] != f[..8];
    } else if i < 16 {
      assert g[8..16] != f[8..16];
    } else if i < 16 + n {
      OneByteChangesHash(p, i - 16, b);
      assert g[16..16 + n] == p[i - 16 := b] && g[16 + n..] == f[16 + n..];
    } else if q == p {
      assert g[i] != f[i];
    } else {
      assert g[16..16 + n] == p && Frame(q)[16..16 + n] == q;
    }
  }

  lemma PatchedHeader(s: Bytes, i: nat, b: byte)
    requires i < |s| && |s| >= 16 && s[i] != b
    ensures i < 8 ==> s[i := b][..8] != s[..8]
    ensures i >= 16 ==> s[i := b][8..16] == s[8..16]
  {
    if i < 8 {
      assert s[i := b][..8][i] != s[..8][i];
    }
  }

  lemma ChangedInLength(p: Bytes, i: nat, b: byte, q: Bytes, rest: Bytes)
    requires |p| < TWO64 && |q| < TWO64 && |p| != |q|
    requires i < |Frame(p)| && Frame(p)[i] != b && Frame(p)[i := b] == Frame(q) + rest
    ensures 8 <= i < 16
  {
    hide Frame, ToBE, Fnv;
    Layout(p);
    Layout(q);
    SameNumber(|p|, |q|);
    var g := Frame(q) + rest;
    assert g[..8] == Frame(q)[..8] && g[8..16] == Frame(q)[8..16];
    PatchedHeader(Frame(p), i, b);
  }

  /** A changed byte in the frame of `p` can still read as a frame of `q` only when `q` is a proper prefix of `p`. */
  lemma ChangedFrame(p: Bytes, i: nat, b: byte, q: Bytes, rest: Bytes)
    requires |p| < TWO64 && |q| < TWO64
    requires i < |Frame(p)| && Frame(p)[i] != b && Frame(p)[i := b] == Frame(q) + rest
    ensures q < p
  {
    hide Frame, ToBE, Fnv;
    Layout(p);
    Layout(q);
    var f, g, n := Frame(p)[i := b], Frame(q) + rest, |q|;
    if n == |p| {
      assert g == Frame(q);
      FramesFarApart(p, q, i, b);
    } else {
      ChangedInLength(p, i, b, q, rest);
      assert n + |rest| == |p|;
      assert f[16..16 + n] == Frame(p)[16..16 + |p|][..n] == p[..n];
      assert g[16..16 + n] == Frame(q)[16..16 + n] == q;
    }
  }

  /** A record fits in memory: its length is a size the vector can have. */
  predicate Fits(payload: Bytes) {
    |payload| + 24 < TWO64
  }

  /** Whatever is read out of a frame has a length the length field can hold. */
  lemma UnframedFits(s: Bytes)
    ensures Unframe(s).Ok? ==> |Unframe(s).value| < TWO64
    ensures !Unframe(s).Escape?
  {
    hide Fnv, FromBE;
  }

  /**
   * Replacing any one byte of the record of an accepted payload by any other value makes it refused with
   * REJECT_UNKNOWN - in the header, the length, the payload or the checksum alike.
   */
  lemma AnyChangedByteIsRefused(p: Bytes, i: nat, b: byte)
    requires Fits(p) && DecodePayload(p).Ok? && i < |Frame(p)| && Frame(p)[i] != b
    ensures Refused(Frame(p)[i := b])
  {
    hide Unframe, DecodePayload, Frame;
    var s := Frame(p)[i := b];
    UnframedFits(s);
    if Unframe(s).Ok? {
      var q := Unframe(s).value;
      UnframeIff(s, q, Unframe(s).rest);
      ChangedFrame(p, i, b, q, Unframe(s).rest);
      PrefixRunsShort(p, q);
    }
  }

  lemma TruncatedIsNoFrame(p: Bytes, n: nat, q: Bytes, rest: Bytes)
    requires |p| < TWO64 && |q| < TWO64 && n < |Frame(p)|
    ensures Frame(p)[..n] != Frame(q) + rest
  {
    hide Frame, ToBE, Fnv;
    Layout(p);
    Layout(q);
    SameNumber(|p|, |q|);
    assert (Frame(q) + rest)[8..16] == Frame(q)[8..16];
    if n >= 16 {
      assert Frame(p)[..n][8..16] == Frame(p)[8..16];
    }
  }

  /** Every proper prefix of any record is refused, whatever its payload. */
  lemma TruncatedIsRefused(p: Bytes, n: nat)
    requires Fits(p) && n < |Frame(p)|
    ensures Refused(Frame(p)[..n])
  {
    hide Unframe, DecodePayload, Frame;
    var s := Frame(p)[..n];
    UnframedFits(s);
    if Unframe(s).Ok? {
      UnframeIff(s, Unframe(s).value, Unframe(s).rest);
      TruncatedIsNoFrame(p, n, Unframe(s).value, Unframe(s).rest);
    }
  }

  /** Bytes after the checksum change nothing, although the documentation asks for trailing bytes to be rejected. */
  lemma BytesAfterChecksumAreIgnored(p: Bytes, junk: Bytes)
    requires Fits(p)
    ensures DecodeRecord(Frame(p) + junk) == DecodeRecord(Frame(p))
  {
    hide Unframe, DecodePayload, Frame;
    assert Frame(p) + [] == Frame(p);
    UnframeOfFrame(p, junk);
    UnframeOfFrame(p, []);
  }

  /** The records that load are exactly those that start with the frame of an accepted payload. */
  lemma LoadsIff(s: Bytes, w: Workload)
    ensures DecodeRecord(s) == Decoded(ALLOW, Some(w)) <==>
            exists p, junk :: |p| < TWO64 && s == Frame(p) + junk && DecodePayload(p).Ok? && DecodePayload(p).value == w
  {
    hide Unframe, DecodePayload, Frame;
    UnframedFits(s);
    if Unframe(s).Ok? {
      UnframeIff(s, Unframe(s).value, Unframe(s).rest);
    }
    if exists p, junk :: |p| < TWO64 && s == Frame(p) + junk && DecodePayload(p).Ok? && DecodePayload(p).value == w {
      var p, junk :| |p| < TWO64 && s == Frame(p) + junk && DecodePayload(p).Ok? && DecodePayload(p).value == w;
      UnframeOfFrame(p, junk);
    }
  }

  // ---- Whole workloads -----------------------------------------------------

  /** Every list and string of the workload, and its record, have sizes their length fields can hold. */
  predicate Encodable(w: Workload) {
    Sized(w) && Fits(Payload(w))
  }

  lemma ReadsOwnRecord(w: Workload)
    requires Fits(Payload(w))
    ensures ReadRecord(EncodeRecord(w)) == DecodePayload(Payload(w))
  {
    hide Unframe, DecodePayload, Frame, Payload;
    assert Frame(Payload(w)) + [] == Frame(Payload(w));
    UnframeOfFrame(Payload(w), []);
  }

  /**
   * A record loads back as the workload it was made from, in every persisted field, exactly when the workload
   * is loadable and its dependency states are paired with their definitions.
   */
  lemma RecordRoundTripIff(w: Workload)
    requires Encodable(w)
    ensures DecodeRecord(EncodeRecord(w)) == Decoded(ALLOW, Some(Persisted(w))) <==> Loadable(w) && Paired(w.deps)
    ensures DecodeRecord(EncodeRecord(w)).Terminated? <==> GoodContract(w.contract) && |w.deps.states| > |w.deps.defs|
  {
    hide DecodePayload, Payload, GoodContract, EncodeRecord, Persisted, Sized;
    ReadsOwnRecord(w);
    RoundTripIff(w);
    OkHasNoRest(Payload(w));
  }

  lemma OkHasNoRest(payload: Bytes)
    ensures DecodePayload(payload).Ok? ==> DecodePayload(payload).rest == []
  {
    hide GetFields;
  }

  /** Any single-byte corruption of a loadable workload's record is refused. */
  lemma CorruptionIsRefused(w: Workload, i: nat, b: byte)
    requires Encodable(w) && Loadable(w) && Paired(w.deps)
    requires i < |EncodeRecord(w)| && EncodeRecord(w)[i] != b
    ensures Refused(EncodeRecord(w)[i := b])
  {
    hide Payload, DecodePayload, Sized, Loadable, Frame, DecodeRecord;
    RoundTripIff(w);
    AnyChangedByteIsRefused(Payload(w), i, b);
  }

  // ---- A fresh workload's record -------------------------------------------

  lemma PrimitiveSizes()
    ensures forall v: u32, k {:trigger PutU32(v, k)} :: |PutU32(v, k)| == 4 + |k|
    ensures forall v: u64, k {:trigger PutU64(v, k)} :: |PutU64(v, k)| == 8 + |k|
    ensures forall v, k {:trigger PutBool(v, k)} :: |PutBool(v, k)| == 1 + |k|
    ensures forall v, k {:trigger PutStr(v, k)} :: |PutStr(v, k)| == 8 + |v| + |k|
    ensures forall n: nat, k {:trigger PutCount(n, k)} :: |PutCount(n, k)| == 4 + |k|
  {
  }

  lemma PolicySize(p: Policy, k: Bytes)
    ensures |PutPolicy(p, k)| == 38 + |k|
  {
    hide PutU32, PutU64, PutBool;
    PrimitiveSizes();
  }

  lemma EmptyRequirementsSize(k: Bytes)
    ensures |PutContract(NO_CONTRACT, k)| == 42 + |k| && |PutDeps(NO_DEPS, k)| == 24 + |k|
    ensures |PutPriority(NO_PRIORITY, k)| == 36 + |k| && |PutProgress(NO_PROGRESS, k)| == 35 + |k|
  {
    hide PutU64, PutBool, PutCount;
    PrimitiveSizes();
  }

  lemma FreshRearSize(id: u64, name: Bytes, intent: Bytes, policy: Policy)
    ensures |PutRear(RearOf(Created(id, name, intent, policy)), [])| == 122
  {
    hide PutU32, PutU64, PutBool, PutStr, PutCount, PutProgress;
    PrimitiveSizes();
    var r := RearOf(Created(id, name, intent, policy));
    EmptyRequirementsSize(PutCounters(r.counters, PutMarks(r.marks, PutCount(0, PutCount(0, [])))));
  }

  lemma FreshFrontSize(id: u64, name: Bytes, intent: Bytes, policy: Policy, k: Bytes)
    ensures |PutFront(FrontOf(Created(id, name, intent, policy)), k)| == 181 + |name| + |intent| + |k|
  {
    hide PutU64, PutStr, PutPolicy, PutContract, PutDeps, PutPriority;
    PrimitiveSizes();
    EmptyRequirementsSize(k);
    EmptyRequirementsSize(PutPriority(NO_PRIORITY, k));
    EmptyRequirementsSize(PutDeps(NO_DEPS, PutPriority(NO_PRIORITY, k)));
    PolicySize(policy, PutContract(NO_CONTRACT, PutDeps(NO_DEPS, PutPriority(NO_PRIORITY, k))));
  }

  lemma FreshEncodable(id: u64, name: Bytes, intent: Bytes, policy: Policy)
    requires |name| < TWO63 - 1000 && |intent| < TWO63 - 1000
    ensures var w := Created(id, name, intent, policy);
            Encodable(w) && |Payload(w)| == 303 + |name| + |intent|
  {
    hide PutFront, PutRear;
    var w := Created(id, name, intent, policy);
    FreshRearSize(id, name, intent, policy);
    FreshFrontSize(id, name, intent, policy, PutRear(RearOf(w), []));
  }

  /** The record of a fresh workload with a valid id and a name that fits in memory always loads back. */
  lemma FreshRecordLoads(id: u64, name: Bytes, intent: Bytes, policy: Policy)
    requires id != 0 && |name| < TWO63 - 1000 && |intent| < TWO63 - 1000
    ensures var w := Created(id, name, intent, policy);
            && |EncodeRecord(w)| == 327 + |name| + |intent|
            && Encodable(w) && Loadable(w) && DecodeRecord(EncodeRecord(w)) == Decoded(ALLOW, Some(w))
  {
    hide Payload, Frame, DecodeRecord, Sized;
    var w := Created(id, name, intent, policy);
    FreshEncodable(id, name, intent, policy);
    Layout(Payload(w));
    RecordRoundTripIff(w);
  }
}

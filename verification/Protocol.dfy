/** The frames coordinator and workers exchange (src/protocol/protocol.cpp). */
module Protocol {
  import opened Basics
  import opened Vocabulary
  import opened Binary
  import opened CodecLaws
  import opened Streams

  datatype Message = Message(
    kind: MsgType, workloadId: u64, episodeId: u64, episodeGen: u64, workloadGen: u64, workerId: u64, bootId: u64,
    value: u64, flag1: bool, flag2: bool, payload: Bytes, extra: Bytes)

  const BLANK: Message := Message(PING, 0, 0, 0, 0, 0, 0, 0, false, false, [], [])

  const PROTOCOL_MAGIC: Bytes := ['W' as int, 'F' as int, 'P' as int, '1' as int]

  function PutHead(m: Message, k: Bytes): Bytes {
    PutEnum(ALL_MSG_TYPES, m.kind, PutU64(m.workloadId, PutU64(m.episodeId, PutU64(m.episodeGen,
    PutU64(m.workloadGen, PutU64(m.workerId, PutU64(m.bootId, k)))))))
  }

  function PutTail(m: Message, k: Bytes): Bytes {
    PutU64(m.value, PutBool(m.flag1, PutBool(m.flag2, PutStr(m.payload, PutStr(m.extra, k)))))
  }

  function GetHead(s: Bytes): Res<Message> {
    var (kind, s) :- GetEnum(ALL_MSG_TYPES, s);
    var (workloadId, s) :- GetU64(s);
    var (episodeId, s) :- GetU64(s);
    var (episodeGen, s) :- GetU64(s);
    var (workloadGen, s) :- GetU64(s);
    var (workerId, s) :- GetU64(s);
    var (bootId, s) :- GetU64(s);
    Ok(Message(kind, workloadId, episodeId, episodeGen, workloadGen, workerId, bootId, 0, false, false, [], []), s)
  }

  function GetTail(m: Message, s: Bytes): Res<Message> {
    var (value, s) :- GetU64(s);
    var (flag1, s) :- GetBool(s);
    var (flag2, s) :- GetBool(s);
    var (payload, s) :- GetStr(s);
    var (extra, s) :- GetStr(s);
    Ok(m.(value := value, flag1 := flag1, flag2 := flag2, payload := payload, extra := extra), s)
  }

  function Body(m: Message): Bytes {
    PutHead(m, PutTail(m, []))
  }

  function Encoded(m: Message): Bytes {
    PROTOCOL_MAGIC + Body(m)
  }

  function ReadBody(s: Bytes): Res<Message> {
    var (m, s) :- GetHead(s);
    GetTail(m, s)
  }

  /** None is the ProtocolError; bytes after the last field are not looked at. */
  function Decoded(frame: Bytes): Option<Message> {
    if |frame| < 4 || frame[..4] != PROTOCOL_MAGIC then None
    else
      match ReadBody(frame[4..])
      case Ok(m, _) => Some(m)
      case _ => None
  }

  predicate SizedMessage(m: Message) {
    |m.payload| < TWO64 && |m.extra| < TWO64
  }

  lemma HeadLaws()
    ensures forall m, k {:trigger PutHead(m, k)} ::
              GetHead(PutHead(m, k)) == Ok(m.(value := 0, flag1 := false, flag2 := false, payload := [], extra := []), k)
    ensures forall s, more {:trigger GetHead(s + more)} :: Stable(GetHead(s), GetHead(s + more), more)
  {
    hide GetEnum, GetU64, PutEnum, PutU64, Lists;
    AllListed();
    EnumLaws(ALL_MSG_TYPES);
    ReadsUndoWrites();
    ReadsAreStable();
  }

  lemma TailLaws()
    ensures forall h, m, k {:trigger GetTail(h, PutTail(m, k))} ::
              SizedMessage(m) ==>
                GetTail(h, PutTail(m, k)) ==
                Ok(h.(value := m.value, flag1 := m.flag1, flag2 := m.flag2, payload := m.payload, extra := m.extra), k)
    ensures forall h, s, more {:trigger GetTail(h, s + more)} :: Stable(GetTail(h, s), GetTail(h, s + more), more)
  {
    hide GetU64, GetBool, GetStr, PutU64, PutBool, PutStr;
    ReadsUndoWrites();
    ReadsAreStable();
  }

  lemma BodyBack(m: Message)
    requires SizedMessage(m)
    ensures ReadBody(Body(m)) == Ok(m, [])
  {
    hide GetHead, GetTail, PutHead, PutTail;
    HeadLaws();
    TailLaws();
  }

  lemma BodyStable(s: Bytes, more: Bytes)
    ensures Stable(ReadBody(s), ReadBody(s + more), more)
  {
    hide GetHead, GetTail;
    HeadLaws();
    TailLaws();
  }

  /** A frame decodes to its message whatever follows it, and no truncation of it decodes at all. */
  lemma FrameRoundTrip(m: Message, junk: Bytes, n: nat)
    requires SizedMessage(m) && n < |Encoded(m)|
    ensures Decoded(Encoded(m) + junk) == Some(m)
    ensures Decoded(Encoded(m)[..n]).None?
  {
    hide ReadBody, Body;
    BodyBack(m);
    var f, body := Encoded(m) + junk, Body(m);
    assert f[..4] == PROTOCOL_MAGIC && f[4..] == body + junk;
    BodyStable(body, junk);
    if n >= 4 {
      var cut := Encoded(m)[..n];
      assert cut[4..] == body[..n - 4] && body[..n - 4] + body[n - 4..] == body;
      BodyStable(body[..n - 4], body[n - 4..]);
    }
  }

  method WriteHead(w: Writer, m: Message)
    modifies w
    ensures forall k {:trigger w.buf + k} :: w.buf + k == old(w.buf) + PutHead(m, k)
  {
    hide PutEnum, PutU64;
    w.Enum(ALL_MSG_TYPES, m.kind);
    w.U64(m.workloadId);
    w.U64(m.episodeId);
    w.U64(m.episodeGen);
    w.U64(m.workloadGen);
    w.U64(m.workerId);
    w.U64(m.bootId);
  }

  method WriteTail(w: Writer, m: Message)
    modifies w
    ensures forall k {:trigger w.buf + k} :: w.buf + k == old(w.buf) + PutTail(m, k)
  {
    hide PutU64, PutBool, PutStr;
    w.U64(m.value);
    w.Bool(m.flag1);
    w.Bool(m.flag2);
    w.Str(m.payload);
    w.Str(m.extra);
  }

  method EncodeMessage(m: Message) returns (frame: Bytes)
    ensures frame == Encoded(m)
  {
    hide PutHead, PutTail;
    var w := new Writer();
    w.Raw(PROTOCOL_MAGIC);
    WriteHead(w, m);
    WriteTail(w, m);
    assert w.buf + [] == w.buf;
    return w.buf;
  }

  method ReadHead(r: Reader) returns (x: Read<Message>)
    requires r.Valid()
    modifies r
    ensures r.Valid() && Follows(x, r.Rest(), GetHead(old(r.Rest())))
  {
    hide GetEnum, GetU64;
    var kind :- r.Enum(ALL_MSG_TYPES);
    var workloadId :- r.U64();
    var episodeId :- r.U64();
    var episodeGen :- r.U64();
    var workloadGen :- r.U64();
    var workerId :- r.U64();
    var bootId :- r.U64();
    return Got(Message(kind, workloadId, episodeId, episodeGen, workloadGen, workerId, bootId, 0, false, false, [], []));
  }

  method ReadTail(r: Reader, m: Message) returns (x: Read<Message>)
    requires r.Valid()
    modifies r
    ensures r.Valid() && Follows(x, r.Rest(), GetTail(m, old(r.Rest())))
  {
    hide GetU64, GetBool, GetStr;
    var value :- r.U64();
    var flag1 :- r.Bool();
    var flag2 :- r.Bool();
    var payload :- r.Str();
    var extra :- r.Str();
    return Got(m.(value := value, flag1 := flag1, flag2 := flag2, payload := payload, extra := extra));
  }

  method DecodeMessage(frame: Bytes) returns (m: Option<Message>)
    ensures m == Decoded(frame)
  {
    hide GetHead, GetTail;
    if |frame| < 4 {
      return None;
    }
    var i := 0;
    while i < 4
      invariant 0 <= i <= 4 && frame[..i] == PROTOCOL_MAGIC[..i]
    {
      if frame[i] != PROTOCOL_MAGIC[i] {
        assert frame[..4][i] != PROTOCOL_MAGIC[i];
        return None;
      }
      i := i + 1;
    }
    assert frame[..4] == PROTOCOL_MAGIC;
    var body := new Reader(frame[4..]);
    var head := ReadHead(body);
    if head.Failed? {
      return None;
    }
    var whole := ReadTail(body, head.value);
    return if whole.Got? then Some(whole.value) else None;
  }
}

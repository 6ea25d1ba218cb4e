/** The frame of a message byte by byte, with every number of the protocol as a literal (src/protocol/protocol.cpp). */
module Wire {
  import opened Basics
  import opened Vocabulary
  import opened Binary
  import opened Protocol
  import opened Numbers
  import opened Layout

  /** "WFP1", the type, seven numbers, two flags and two texts. */
  function FrameBytes(m: Message): Bytes {
    [0x57, 0x46, 0x50, 0x31] + [TypeNumber(m.kind)]
    + (Long(m.workloadId) + Long(m.episodeId) + Long(m.episodeGen) + Long(m.workloadGen) + Long(m.workerId) + Long(m.bootId))
    + (Long(m.value) + Flag(m.flag1) + Flag(m.flag2) + Text(m.payload) + Text(m.extra))
  }

  lemma HeadWritten(m: Message, k: Bytes)
    ensures PutHead(m, k) ==
            [TypeNumber(m.kind)]
            + ((Long(m.workloadId) + Long(m.episodeId) + Long(m.episodeGen) + Long(m.workloadGen) + Long(m.workerId) + Long(m.bootId)) + k)
  {
    hide PutU64, PutEnum, Long, TypeNumber, ALL_MSG_TYPES, Numbered;
    FieldsWritten();
    MsgTypeNumbers();
    EnumWritten(ALL_MSG_TYPES, TypeNumber);
    SixGrouped(Long(m.workloadId), Long(m.episodeId), Long(m.episodeGen), Long(m.workloadGen), Long(m.workerId), Long(m.bootId), k);
  }

  lemma TailWritten(m: Message)
    ensures PutTail(m, []) == Long(m.value) + Flag(m.flag1) + Flag(m.flag2) + Text(m.payload) + Text(m.extra)
  {
    hide PutU64, PutBool, PutStr, Long, Flag, Text;
    FieldsWritten();
    assert Text(m.extra) + [] == Text(m.extra);
    FourGrouped(Long(m.value), Flag(m.flag1), Flag(m.flag2), Text(m.payload), Text(m.extra));
  }

  /** The frame of every message is the flat list of its fields. */
  lemma FrameIsItsBytes(m: Message)
    ensures Encoded(m) == FrameBytes(m)
  {
    hide PutHead, PutTail, Long, Flag, Text, TypeNumber;
    TailWritten(m);
    HeadWritten(m, PutTail(m, []));
    Grouping();
  }

  /** Whatever decodes begins with "WFP1" and the number of its type; any other type is refused. */
  lemma DecodedType(frame: Bytes)
    ensures Decoded(frame).Some? ==>
              |frame| > 4 && frame[..4] == [0x57, 0x46, 0x50, 0x31] && frame[4] == TypeNumber(Decoded(frame).value.kind)
    ensures |frame| > 4 && frame[4] > 7 ==> Decoded(frame).None?
  {
    hide GetU64, GetTail, TypeNumber, ALL_MSG_TYPES;
    MsgTypeNumbers();
    if |frame| > 4 {
      assert frame[4..] == [frame[4]] + frame[5..];
      ByteNames(ALL_MSG_TYPES, TypeNumber, frame[4], frame[5..]);
      hide GetEnum;
      TailKeepsType(frame[4..]);
    }
  }

  lemma TailKeepsType(s: Bytes)
    ensures ReadBody(s).Ok? ==> GetHead(s).Ok? && ReadBody(s).value.kind == GetHead(s).value.kind
  {
    hide GetHead, GetU64, GetBool, GetStr;
  }
}

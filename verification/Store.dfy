/** Saving and loading whole records, and the in-memory store (src/persistence.cpp). */
module Store {
  import opened Basics
  import opened Vocabulary
  import opened Model
  import opened Aggregate
  import opened Binary
  import opened Hash
  import opened Streams
  import opened Codec
  import opened Encoding
  import opened Decoding
  import opened Records

  // ---- One record ----------------------------------------------------------

  method EncodePayload(w: DurableWorkload) returns (payload: Bytes)
    ensures payload == Payload(w.View())
  {
    hide PutFront, PutRear;
    var pw := new Writer();
    WriteFront(pw, FrontOf(w.View()));
    WriteRear(pw, RearOf(w.View()));
    assert pw.buf + [] == pw.buf;
    return pw.buf;
  }

  method WritePrologue(w: Writer, n: u64)
    modifies w
    ensures forall k {:trigger w.buf + k} :: w.buf + k == old(w.buf) + Prologue(n, k)
  {
    hide PutU32, PutU64;
    w.U32(MAGIC);
    w.U32(FORMAT_VERSION);
    w.U64(n);
  }

  /** Magic, version, length, payload, checksum. */
  method WriteFrame(payload: Bytes) returns (record: Bytes)
    ensures record == Frame(payload)
  {
    hide PutU64, Fnv, Prologue;
    var fw := new Writer();
    WritePrologue(fw, Wrap(|payload|));
    ghost var prologue := fw.buf;
    fw.Raw(payload);
    var h := Fnv1a64(payload);
    fw.U64(h);
    calc {
      fw.buf;
      fw.buf + [];
      (prologue + payload) + PutU64(h, []);
      { Associates(prologue, payload, PutU64(h, [])); }
      prologue + (payload + PutU64(h, []));
      [] + Prologue(Wrap(|payload|), payload + PutU64(h, []));
      Frame(payload);
    }
    return fw.buf;
  }

  method EncodeWorkload(w: DurableWorkload) returns (record: Bytes)
    ensures record == EncodeRecord(w.View())
  {
    hide Payload, Frame;
    var payload := EncodePayload(w);
    record := WriteFrame(payload);
  }

  /** Trailing bytes and impossible identities are refused once every field has been read. */
  method DecodeFields(payload: Bytes) returns (x: Read<Workload>)
    ensures Follows(x, [], DecodePayload(payload))
  {
    hide GetFront, GetRear;
    var r := new Reader(payload);
    var front :- ReadFront(r);
    var rear :- ReadRear(r);
    var empty := r.Empty();
    if !empty {
      return Failed(REJECTED);
    }
    var w := WorkloadOf(front, rear);
    if w.ident.id == 0 || w.generation == 0 || w.revision == 0 {
      return Failed(REJECTED);
    }
    return Got(w);
  }

  method OpenRecord(data: Bytes) returns (x: Read<Bytes>)
    ensures Unframe(data).Ok? ==> x == Got(Unframe(data).value)
    ensures Unframe(data).Reject? ==> x == Failed(REJECTED)
    ensures Unframe(data).Short? ==> x == Failed(RAN_SHORT)
  {
    hide GetU32, GetU64, Fnv;
    var fr := new Reader(data);
    var magic :- fr.U32();
    if magic != MAGIC {
      return Failed(REJECTED);
    }
    var version :- fr.U32();
    if version != FORMAT_VERSION {
      return Failed(REJECTED);
    }
    var n :- fr.U64();
    var remaining := fr.Remaining();
    if n > remaining {
      return Failed(REJECTED);
    }
    var raw := fr.Raw(n);
    var payload := raw.value;
    var stored :- fr.U64();
    var h := Fnv1a64(payload);
    if stored != h {
      return Failed(REJECTED);
    }
    return Got(payload);
  }

  /** What the caller of decode sees of a failure: codec errors are caught, nothing else is. */
  function Seen(x: Read<Workload>): Decoded {
    match x
    case Got(w) => Decoded(ALLOW, Some(w))
    case Failed(ESCAPED) => Terminated
    case Failed(_) => Decoded(REJECT_UNKNOWN, None)
  }

  method DecodeWorkload(data: Bytes) returns (d: Decoded)
    ensures d == DecodeRecord(data)
  {
    hide Unframe, DecodePayload;
    UnframedFits(data);
    var payload := OpenRecord(data);
    if payload.Failed? {
      return Seen(Failed(payload.fault));
    }
    var x := DecodeFields(payload.value);
    return Seen(x);
  }

  // ---- The store -----------------------------------------------------------

  type Shelf = seq<(u64, Bytes)>

  /** Position of the first record of this workload, or the number of records. */
  function Slot(shelf: Shelf, id: u64): (i: nat)
    ensures i <= |shelf|
    ensures i < |shelf| ==> shelf[i].0 == id
    ensures forall j | 0 <= j < i :: shelf[j].0 != id
  {
    if shelf == [] || shelf[0].0 == id then 0 else 1 + Slot(shelf[1..], id)
  }

  lemma SlotIs(shelf: Shelf, id: u64, i: nat)
    requires i <= |shelf| && (i < |shelf| ==> shelf[i].0 == id) && forall j | 0 <= j < i :: shelf[j].0 != id
    ensures Slot(shelf, id) == i
  {
    var s := Slot(shelf, id);
    assert s < |shelf| ==> shelf[s].0 == id;
  }

  function Lookup(shelf: Shelf, id: u64): Option<Bytes> {
    var i := Slot(shelf, id);
    if i < |shelf| then Some(shelf[i].1) else None
  }

  function Saved(shelf: Shelf, id: u64, record: Bytes): Shelf {
    var i := Slot(shelf, id);
    if i < |shelf| then shelf[i := (id, record)] else shelf + [(id, record)]
  }

  function Removed(shelf: Shelf, id: u64): Shelf {
    var i := Slot(shelf, id);
    if i < |shelf| then shelf[..i] + shelf[i + 1..] else shelf
  }

  function LoadedFrom(shelf: Shelf, id: u64): Decoded {
    var record := Lookup(shelf, id);
    if record.None? then Decoded(REJECT_WORKLOAD_NOT_FOUND, None) else DecodeRecord(record.value)
  }

  predicate OnePerId(shelf: Shelf) {
    forall i, j | 0 <= i < j < |shelf| :: shelf[i].0 != shelf[j].0
  }

  /** A save is seen by loads of that workload only, and keeps one record per workload. */
  lemma SavedLookup(shelf: Shelf, id: u64, record: Bytes, other: u64)
    ensures Lookup(Saved(shelf, id, record), other) == if other == id then Some(record) else Lookup(shelf, other)
    ensures OnePerId(shelf) ==> OnePerId(Saved(shelf, id, record))
  {
    var i, j, next := Slot(shelf, id), Slot(shelf, other), Saved(shelf, id, record);
    if other == id {
      SlotIs(next, id, i);
    } else {
      SlotIs(next, other, if j < |shelf| then j else |next|);
    }
  }

  /** A removed record is gone, and every other one is still found. */
  lemma RemovedLookup(shelf: Shelf, id: u64, other: u64)
    requires OnePerId(shelf)
    ensures Lookup(Removed(shelf, id), other) == if other == id then None else Lookup(shelf, other)
    ensures OnePerId(Removed(shelf, id))
  {
    var i, j, next := Slot(shelf, id), Slot(shelf, other), Removed(shelf, id);
    hide Slot;
    if other == id {
      SlotIs(next, id, |next|);
    } else {
      SlotIs(next, other, if i < |shelf| && (j > i) then j - 1 else j);
    }
  }

  class MemoryStateStore {
    var records: Shelf

    constructor ()
      ensures records == [] && fresh(this)
    {
      records := [];
    }

    method Save(w: DurableWorkload) returns (out: Outcome)
      modifies this
      ensures records == Saved(old(records), w.id, EncodeRecord(w.View()))
      ensures out == ALLOW
    {
      hide EncodeRecord, DurableWorkload.View;
      var i := 0;
      while i < |records|
        invariant 0 <= i <= |records| && records == old(records)
        invariant forall j | 0 <= j < i :: records[j].0 != w.id
      {
        if records[i].0 == w.id {
          SlotIs(records, w.id, i);
          var replacement := EncodeWorkload(w);
          records := records[i := (w.id, replacement)];
          return ALLOW;
        }
        i := i + 1;
      }
      SlotIs(records, w.id, i);
      var record := EncodeWorkload(w);
      records := records + [(w.id, record)];
      return ALLOW;
    }

    method Load(id: u64) returns (d: Decoded)
      ensures d == LoadedFrom(records, id)
    {
      hide DecodeRecord;
      var i := 0;
      while i < |records|
        invariant 0 <= i <= |records|
        invariant forall j | 0 <= j < i :: records[j].0 != id
      {
        if records[i].0 == id {
          SlotIs(records, id, i);
          d := DecodeWorkload(records[i].1);
          return;
        }
        i := i + 1;
      }
      SlotIs(records, id, i);
      return Decoded(REJECT_WORKLOAD_NOT_FOUND, None);
    }

    method ListIds() returns (ids: seq<u64>)
      ensures |ids| == |records| && forall i | 0 <= i < |ids| :: ids[i] == records[i].0
    {
      ids := [];
      var i := 0;
      while i < |records|
        invariant 0 <= i == |ids| <= |records|
        invariant forall j | 0 <= j < i :: ids[j] == records[j].0
      {
        ids := ids + [records[i].0];
        i := i + 1;
      }
    }

    method Remove(id: u64) returns (found: bool)
      modifies this
      ensures found == Lookup(old(records), id).Some?
      ensures records == Removed(old(records), id)
    {
      var i := 0;
      while i < |records|
        invariant 0 <= i <= |records| && records == old(records)
        invariant forall j | 0 <= j < i :: records[j].0 != id
      {
        if records[i].0 == id {
          SlotIs(records, id, i);
          records := records[..i] + records[i + 1..];
          return true;
        }
        i := i + 1;
      }
      SlotIs(records, id, i);
      return false;
    }
  }
}

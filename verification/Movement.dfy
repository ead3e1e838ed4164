/** The movement packet: 78 bytes with a bit header, written over one send interval, sent whole or
    cut to 36 bytes, and read back.

    Field `k` counts the fields of a movement frame in the order of their addresses; a group is a
    position (three fields) or a rotation (four).  Numbers are the bytes that they are stored as. */
module Movement {
  import opened Sfu

  type Byte = bv8

  const FIELDS := 35
  const SIZE := 78
  const SHORT := 36

  function Width(k: nat): nat {
    if k < 3 then 4 else 2
  }

  function Address(k: nat): nat {
    if k < 3 then 2 + 4 * k else 14 + 2 * (k - 3)
  }

  /** The header bit of the group that field `k` belongs to. */
  function GroupBit(k: nat): bv16
    requires k < FIELDS
  {
    if k < 3 then 1 else if k < 7 then 2 else if k < 10 then 4 else if k < 14 then 8
    else if k < 17 then 16 else if k < 21 then 32 else if k < 24 then 64 else if k < 28 then 128
    else if k < 31 then 256 else 512
  }

  const BASE_POS: bv16 := 1
  const LEFT_HAND_POS: bv16 := 16
  const RIGHT_HAND_POS: bv16 := 64
  const GAME_PIECE_POS: bv16 := 256
  const FULL_PACKET: bv16 := 1024
  const FREQUENT: bv16 := 2048
  const WIDE: bv16 := 0x150   // a hand's or the game piece's position
  const GROUPS: bv16 := 0x3FF

  /** A partial update: the bytes of the fields that are not undefined. */
  type Frame = f: map<nat, seq<Byte>> | forall k :: k in f ==> k < FIELDS && |f[k]| == Width(k) witness map[]

  function Low(h: bv16): Byte { (h & 0xFF) as bv8 }
  function High(h: bv16): Byte { (h >> 8) as bv8 }
  function Join(low: Byte, high: Byte): bv16 { (low as bv16) | ((high as bv16) << 8) }

  lemma JoinSplit(h: bv16)
    ensures Join(Low(h), High(h)) == h
  {
  }

  /** The field that byte `i` belongs to, and its place there. */
  function FieldOf(i: nat): nat
    requires 2 <= i < SIZE
  {
    if i < 14 then (i - 2) / 4 else 3 + (i - 14) / 2
  }

  function PlaceOf(i: nat): nat
    requires 2 <= i < SIZE
  {
    if i < 14 then (i - 2) % 4 else (i - 14) % 2
  }

  lemma PlacesTile(k: nat, i: nat)
    requires k < FIELDS
    ensures Address(k) + Width(k) <= SIZE
    ensures 2 <= i < SIZE ==> (Address(k) <= i < Address(k) + Width(k) <==> FieldOf(i) == k)
    ensures Address(k) <= i < Address(k) + Width(k) ==> 2 <= i < SIZE && PlaceOf(i) == i - Address(k)
  {
  }

  // ---------------------------------------------------------------- writing

  function WithBit(h: bv16, bit: bv16): bv16 {
    if h & bit != 0 then h else h + bit
  }

  /** The header once the bits of `fields` have been set one after the other. */
  function WithBits(h: bv16, fields: seq<nat>): bv16
    requires forall k :: k in fields ==> k < FIELDS
  {
    if fields == [] then h
    else
      var n := |fields| - 1;
      assert fields[n] in fields && forall k :: k in fields[..n] ==> k in fields;
      WithBit(WithBits(h, fields[..n]), GroupBit(fields[n]))
  }

  /** The full-packet bit is added, not set. */
  function Widened(h: bv16): bv16 {
    if h & WIDE != 0 then h + FULL_PACKET else h
  }

  /** `order` is an order in which the fields of a frame that are not undefined may come. */
  ghost predicate Enumerates(order: seq<nat>, frame: Frame) {
    forall k :: k in order <==> k in frame
  }

  function Stored(b: seq<Byte>, frame: Frame, h: bv16): (b': seq<Byte>)
    requires |b| == SIZE
    ensures |b'| == SIZE
  {
    seq(SIZE, i requires 0 <= i < SIZE =>
      if i == 0 then Low(h) else if i == 1 then High(h)
      else if FieldOf(i) in frame then frame[FieldOf(i)][PlaceOf(i)] else b[i])
  }

  function Put(b: seq<Byte>, k: nat, value: seq<Byte>): (b': seq<Byte>)
    requires |b| == SIZE && k < FIELDS && |value| == Width(k)
    ensures |b'| == SIZE
  {
    seq(SIZE, i requires 0 <= i < SIZE => if 2 <= i && FieldOf(i) == k then value[PlaceOf(i)] else b[i])
  }

  /** What is stored once `fields` have been written. */
  function StoredSome(b: seq<Byte>, frame: Frame, fields: seq<nat>): (b': seq<Byte>)
    requires |b| == SIZE && forall k :: k in fields ==> k in frame
    ensures |b'| == SIZE
  {
    seq(SIZE, i requires 0 <= i < SIZE =>
      if 2 <= i && FieldOf(i) in fields then frame[FieldOf(i)][PlaceOf(i)] else b[i])
  }

  lemma StoredNext(b: seq<Byte>, frame: Frame, fields: seq<nat>, k: nat)
    requires |b| == SIZE && (forall x :: x in fields ==> x in frame) && k in frame
    ensures StoredSome(b, frame, fields + [k]) == Put(StoredSome(b, frame, fields), k, frame[k])
  {
  }

  lemma StoredAtEnd(b: seq<Byte>, frame: Frame, order: seq<nat>, h: bv16)
    requires |b| == SIZE && Enumerates(order, frame)
    ensures StoredSome(b, frame, order)[0 := Low(h)][1 := High(h)] == Stored(b, frame, h)
    ensures StoredSome(b, frame, []) == b
  {
  }

  function Zeros(): (b: seq<Byte>)
    ensures |b| == SIZE
  {
    seq(SIZE, i => 0)
  }

  function HeaderAt(b: seq<Byte>): bv16
    requires |b| >= 2
  {
    Join(b[0], b[1])
  }

  /** `header < 15` on a signed 16-bit number. */
  predicate Below15(h: bv16) {
    h & 0x8000 != 0 || h < 15
  }

  function Emitted(b: seq<Byte>, full: bool): Option<seq<Byte>>
    requires |b| == SIZE
  {
    var h := HeaderAt(b);
    if (h & BASE_POS != 0 && h & FULL_PACKET != 0) || full then Some(b)
    else if h & BASE_POS != 0 && Below15(h) then Some(b[..SHORT])
    else None
  }

  class MovementTransport {
    const sendBuffer: array<Byte>
    var inputHeader: bv16

    constructor ()
      ensures fresh(sendBuffer) && sendBuffer[..] == Zeros() && sendBuffer.Length == SIZE && inputHeader == 0
    {
      sendBuffer := new Byte[SIZE](i => 0);
      inputHeader := 0;
      new;
      assert sendBuffer[..] == Zeros();
    }

    method PutField(k: nat, value: seq<Byte>)
      requires sendBuffer.Length == SIZE && k < FIELDS && |value| == Width(k)
      modifies sendBuffer
      ensures sendBuffer[..] == Put(old(sendBuffer[..]), k, value)
    {
      for i := 0 to Width(k)
        invariant Address(k) + Width(k) <= SIZE
        invariant forall j :: 0 <= j < SIZE ==>
          sendBuffer[j] == if Address(k) <= j < Address(k) + i then value[j - Address(k)] else old(sendBuffer[j])
      {
        sendBuffer[Address(k) + i] := value[i];
      }
      forall i | 0 <= i < SIZE ensures sendBuffer[i] == Put(old(sendBuffer[..]), k, value)[i] {
        PlacesTile(k, i);
      }
    }

    method SetInputHeaderBitIdempotently(bit: bv16)
      modifies this
      ensures inputHeader == WithBit(old(inputHeader), bit)
    {
      if inputHeader & bit != 0 {
        return;
      }
      inputHeader := inputHeader + bit;
    }

    method SetMovement(frame: Frame, order: seq<nat>)
      requires sendBuffer.Length == SIZE && Enumerates(order, frame)
      modifies this, sendBuffer
      ensures inputHeader == Widened(WithBits(old(inputHeader), order))
      ensures sendBuffer[..] == Stored(old(sendBuffer[..]), frame, inputHeader)
    {
      ghost var before := sendBuffer[..];
      StoredAtEnd(before, frame, order, inputHeader);
      for i := 0 to |order|
        invariant inputHeader == WithBits(old(inputHeader), order[..i])
        invariant sendBuffer[..] == StoredSome(before, frame, order[..i])
      {
        var k := order[i];
        assert order[..i + 1] == order[..i] + [k] && order[..i + 1][..i] == order[..i];
        StoredNext(before, frame, order[..i], k);
        SetInputHeaderBitIdempotently(GroupBit(k));
        PutField(k, frame[k]);
      }
      assert order[..|order|] == order;
      if inputHeader & WIDE != 0 {
        inputHeader := inputHeader + FULL_PACKET;
      }
      StoredAtEnd(before, frame, order, inputHeader);
      sendBuffer[0] := Low(inputHeader);
      sendBuffer[1] := High(inputHeader);
      assert sendBuffer[..] == StoredSome(before, frame, order)[0 := Low(inputHeader)][1 := High(inputHeader)];
    }

    method ClearBuffer()
      requires sendBuffer.Length == SIZE
      modifies sendBuffer
      ensures sendBuffer[..] == Zeros()
    {
      sendBuffer[0], sendBuffer[1] := 0, 0;
      for k := 0 to FIELDS
        invariant sendBuffer[0] == 0 && sendBuffer[1] == 0
        invariant forall i :: 2 <= i < SIZE && FieldOf(i) < k ==> sendBuffer[i] == 0
      {
        PutField(k, seq(Width(k), i => 0));
      }
      assert sendBuffer[..] == Zeros();
    }

    /** The timer goes off; `full` is the switch in the page's address. */
    method Tick(full: bool) returns (packet: Option<seq<Byte>>)
      requires sendBuffer.Length == SIZE
      modifies this, sendBuffer
      ensures packet == Emitted(old(sendBuffer[..]), full)
      ensures sendBuffer[..] == Zeros() && inputHeader == 0
    {
      var header := Join(sendBuffer[0], sendBuffer[1]);
      packet := None;
      if (header & BASE_POS != 0 && header & FULL_PACKET != 0) || full {
        packet := Some(sendBuffer[..]);
      } else if header & BASE_POS != 0 && Below15(header) {
        packet := Some(sendBuffer[..SHORT]);
      }
      ClearBuffer();
      inputHeader := 0;
    }
  }
}

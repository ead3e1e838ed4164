/** Taking apart the packed movement of many peers: a 16-byte id and a packet for each. */
module Unpacker {
  import opened Sfu
  import opened Movement

  type Id = b: seq<Byte> | |b| == 16 witness seq(16, i => 0)

  // ---------------------------------------------------------------- ids as text

  function HexDigit(d: Byte): char {
    if d == 0 then '0' else if d == 1 then '1' else if d == 2 then '2' else if d == 3 then '3'
    else if d == 4 then '4' else if d == 5 then '5' else if d == 6 then '6' else if d == 7 then '7'
    else if d == 8 then '8' else if d == 9 then '9' else if d == 10 then 'a' else if d == 11 then 'b'
    else if d == 12 then 'c' else if d == 13 then 'd' else if d == 14 then 'e' else 'f'
  }

  function ByteToHex(b: Byte): (s: string)
    ensures |s| == 2
  {
    [HexDigit(b >> 4), HexDigit(b & 15)]
  }

  function Hex(bs: seq<Byte>): (s: string)
    ensures |s| == 2 * |bs|
  {
    if bs == [] then "" else ByteToHex(bs[0]) + Hex(bs[1..])
  }

  /** `arrayBufferToUuid`, the text form of section 4 of RFC 9562. */
  function Uuid(id: Id): (s: string)
    ensures |s| == 36 && s[8] == s[13] == s[18] == s[23] == '-'
  {
    Hex(id[0..4]) + "-" + Hex(id[4..6]) + "-" + Hex(id[6..8]) + "-" + Hex(id[8..10]) + "-" + Hex(id[10..16])
  }

  // ---------------------------------------------------------------- reading ids back

  /** The value of a hexadecimal digit, by its place among the characters. */
  function DigitValue(c: char): (d: int) {
    if '0' <= c <= '9' then c as int - '0' as int
    else if 'a' <= c <= 'f' then c as int - 'a' as int + 10
    else 0
  }

  /** The text without hyphens. */
  function Digits(s: string): string {
    if s == [] then [] else (if s[0] == '-' then [] else [s[0]]) + Digits(s[1..])
  }

  /** Two digits for each byte, the higher one first. */
  function Values(s: string): seq<int> {
    if |s| < 2 then [] else [16 * DigitValue(s[0]) + DigitValue(s[1])] + Values(s[2..])
  }

  /** The bytes of an id by its text. */
  function ParseUuid(s: string): seq<int> {
    Values(Digits(s))
  }

  function Ints(bs: seq<Byte>): (ns: seq<int>)
    ensures |ns| == |bs| && forall k :: 0 <= k < |bs| ==> ns[k] == bs[k] as int
  {
    seq(|bs|, k requires 0 <= k < |bs| => bs[k] as int)
  }

  lemma DigitReads(d: Byte)
    requires d < 16
    ensures DigitValue(HexDigit(d)) == d as int && HexDigit(d) != '-'
  {
  }

  lemma NibblesFit(b: Byte)
    ensures b >> 4 < 16 && b & 15 < 16
  {
  }

  lemma ByteReads(b: Byte)
    ensures 16 * DigitValue(ByteToHex(b)[0]) + DigitValue(ByteToHex(b)[1]) == b as int
    ensures '-' !in ByteToHex(b)
  {
    NibblesFit(b);
    DigitReads(b >> 4);
    DigitReads(b & 15);
    NibbleSum(b);
  }

  lemma NibbleSum(b: Byte)
    ensures 16 * ((b >> 4) as int) + (b & 15) as int == b as int
  {
  }

  lemma {:induction false} DigitsSum(a: string, b: string)
    ensures Digits(a + b) == Digits(a) + Digits(b)
  {
    if a == [] {
      assert a + b == b;
    } else {
      assert (a + b)[0] == a[0] && (a + b)[1..] == a[1..] + b;
      DigitsSum(a[1..], b);
    }
  }

  lemma TwoDigits(c: char, d: char, rest: string)
    requires c != '-' && d != '-'
    ensures Digits([c, d] + rest) == [c, d] + Digits(rest)
    ensures Values([c, d] + rest) == [16 * DigitValue(c) + DigitValue(d)] + Values(rest)
  {
    var s := [c, d] + rest;
    assert s[1..] == [d] + rest && s[1..][1..] == rest && s[2..] == rest;
    assert [c] + ([d] + Digits(rest)) == [c, d] + Digits(rest);
  }

  lemma {:induction false} HexReads(bs: seq<Byte>)
    ensures Digits(Hex(bs)) == Hex(bs) && Values(Hex(bs)) == Ints(bs)
  {
    if bs != [] {
      var rest := Hex(bs[1..]);
      HexReads(bs[1..]);
      ByteReads(bs[0]);
      TwoDigits(ByteToHex(bs[0])[0], ByteToHex(bs[0])[1], rest);
      assert Ints(bs) == [bs[0] as int] + Ints(bs[1..]);
    }
  }

  lemma {:induction false} HexSum(a: seq<Byte>, b: seq<Byte>)
    ensures Hex(a + b) == Hex(a) + Hex(b)
  {
    if a == [] {
      assert a + b == b;
    } else {
      assert (a + b)[0] == a[0] && (a + b)[1..] == a[1..] + b;
      HexSum(a[1..], b);
    }
  }

  lemma DashSum(s: string, t: string)
    ensures Digits(s + "-" + t) == Digits(s) + Digits(t)
  {
    DigitsSum(s + "-", t);
    DigitsSum(s, "-");
    assert Digits("-") == Digits("-"[1..]) == "";
  }

  lemma DashHex(s: string, id: Id, i: nat, j: nat)
    requires i <= j <= 16 && Digits(s) == Hex(id[..i])
    ensures Digits(s + "-" + Hex(id[i..j])) == Hex(id[..j])
  {
    DashSum(s, Hex(id[i..j]));
    HexReads(id[i..j]);
    HexSum(id[..i], id[i..j]);
    assert id[..i] + id[i..j] == id[..j];
  }

  lemma UuidDigits(id: Id)
    ensures Digits(Uuid(id)) == Hex(id)
  {
    var s := Hex(id[0..4]);
    HexReads(id[0..4]);
    DashHex(s, id, 4, 6);
    s := s + "-" + Hex(id[4..6]);
    DashHex(s, id, 6, 8);
    s := s + "-" + Hex(id[6..8]);
    DashHex(s, id, 8, 10);
    s := s + "-" + Hex(id[8..10]);
    DashHex(s, id, 10, 16);
    assert id[..16] == id;
  }

  /** The text of an id says its bytes, in order. */
  lemma UuidReads(id: Id)
    ensures ParseUuid(Uuid(id)) == Ints(id)
  {
    UuidDigits(id);
    HexReads(id);
  }

  /** So different ids have different texts. */
  lemma UuidInjective(a: Id, b: Id)
    requires Uuid(a) == Uuid(b)
    ensures a == b
  {
    UuidReads(a);
    UuidReads(b);
    forall k | 0 <= k < 16 ensures a[k] == b[k] {
      assert Ints(a)[k] == Ints(b)[k];
    }
  }

  // ---------------------------------------------------------------- unpacking

  /** `slice`, which stops at the end of the buffer. */
  function Slice(b: seq<Byte>, from: nat, to: nat): seq<Byte>
    requires from <= to
  {
    if |b| <= from then [] else if |b| < to then b[from..] else b[from..to]
  }

  /** What is left from `from` on. */
  function From(b: seq<Byte>, from: nat): seq<Byte> {
    if from <= |b| then b[from..] else []
  }

  function PacketSize(header: bv16): nat {
    if header & FULL_PACKET != 0 then SIZE else SHORT
  }

  /** One round of the loop at the start of `b`: the id, the packet and what comes after; nothing
      if the id or the header is cut off, which throws. */
  function Split(b: seq<Byte>): Option<(Id, seq<Byte>, seq<Byte>)> {
    if |b| < 18 then None
    else
      var end := 16 + PacketSize(Join(b[16], b[17]));
      Some((b[..16], Slice(b, 16, end), From(b, end)))
  }

  /** `packedBinaryToMap`: nothing if it throws. */
  function Unpacked(b: seq<Byte>, state: map<string, seq<Byte>>): Option<map<string, seq<Byte>>>
    decreases |b|
  {
    if b == [] then Some(state)
    else match Split(b)
      case None => None
      case Some((id, packet, rest)) => Unpacked(rest, state[Uuid(id) := packet])
  }

  method PackedBinaryToMap(b: seq<Byte>) returns (r: Option<map<string, seq<Byte>>>)
    ensures r == Unpacked(b, map[])
  {
    var state: map<string, seq<Byte>> := map[];
    var offset := 0;
    while offset < |b|
      invariant Unpacked(From(b, offset), state) == Unpacked(b, map[])
      decreases |b| - offset
    {
      var id := Slice(b, offset, offset + 16);
      if |id| != 16 {
        return None;
      }
      if offset + 18 > |b| {
        return None;
      }
      var size := PacketSize(Join(b[offset + 16], b[offset + 17]));
      var packet := Slice(b, offset + 16, offset + 16 + size);
      SplitAt(b, offset);
      state := state[Uuid(id) := packet];
      offset := offset + 16 + size;
    }
    r := Some(state);
  }

  lemma SplitAt(b: seq<Byte>, offset: nat)
    requires offset + 18 <= |b|
    ensures var end := offset + 16 + PacketSize(Join(b[offset + 16], b[offset + 17]));
      |Slice(b, offset, offset + 16)| == 16
      && Split(From(b, offset)) == Some((Slice(b, offset, offset + 16), Slice(b, offset + 16, end), From(b, end)))
  {
    var left := From(b, offset);
    var size := PacketSize(Join(b[offset + 16], b[offset + 17]));
    assert left[16] == b[offset + 16] && left[17] == b[offset + 17];
    assert left[..16] == Slice(b, offset, offset + 16);
    assert Slice(left, 16, 16 + size) == Slice(b, offset + 16, offset + 16 + size);
    assert From(left, 16 + size) == From(b, offset + 16 + size);
  }

  // ---------------------------------------------------------------- packing

  datatype Entry = Entry(id: Id, packet: seq<Byte>)

  /** The packet is as long as its own header says. */
  predicate WellSized(e: Entry) {
    |e.packet| >= 2 && |e.packet| == PacketSize(HeaderAt(e.packet))
  }

  function Packed(es: seq<Entry>): seq<Byte> {
    if es == [] then [] else es[0].id + es[0].packet + Packed(es[1..])
  }

  /** The last packet of each peer, on top of `state`. */
  function LastPackets(es: seq<Entry>, state: map<string, seq<Byte>>): map<string, seq<Byte>>
    decreases |es|
  {
    if es == [] then state else LastPackets(es[1..], state[Uuid(es[0].id) := es[0].packet])
  }

  lemma SplitPacked(e: Entry, rest: seq<Byte>)
    requires WellSized(e)
    ensures Split(e.id + e.packet + rest) == Some((e.id, e.packet, rest))
  {
    var b := e.id + e.packet + rest;
    assert b[16] == e.packet[0] && b[17] == e.packet[1];
    var end := 16 + |e.packet|;
    assert b[..16] == e.id && b[16..end] == e.packet && b[end..] == rest;
  }

  lemma {:induction false} UnpackPacked(es: seq<Entry>, tail: seq<Byte>, state: map<string, seq<Byte>>)
    requires forall e :: e in es ==> WellSized(e)
    ensures Unpacked(Packed(es) + tail, state) == Unpacked(tail, LastPackets(es, state))
    decreases |es|
  {
    if es == [] {
      assert Packed(es) + tail == tail;
    } else {
      SplitPacked(es[0], Packed(es[1..]) + tail);
      assert es[0].id + es[0].packet + Packed(es[1..]) + tail == es[0].id + es[0].packet + (Packed(es[1..]) + tail);
      UnpackPacked(es[1..], tail, state[Uuid(es[0].id) := es[0].packet]);
    }
  }

  /** Unpacking gives back what was packed, the last packet for each id. */
  lemma UnpackingInvertsPacking(es: seq<Entry>)
    requires forall e :: e in es ==> WellSized(e)
    ensures Unpacked(Packed(es), map[]) == Some(LastPackets(es, map[]))
  {
    UnpackPacked(es, [], map[]);
    assert Packed(es) + [] == Packed(es);
  }

  /** Bytes left over after whole entries throw everything away exactly if they are fewer than an
      id and a header; a packet that is cut off later is stored as it is. */
  lemma LeftOver(es: seq<Entry>, tail: seq<Byte>)
    requires forall e :: e in es ==> WellSized(e)
    requires tail != [] && (|tail| >= 18 ==> |tail| < 16 + PacketSize(Join(tail[16], tail[17])))
    ensures Unpacked(Packed(es) + tail, map[]) ==
      if |tail| < 18 then None else Some(LastPackets(es, map[])[Uuid(tail[..16]) := tail[16..]])
  {
    UnpackPacked(es, tail, map[]);
    if |tail| >= 18 {
      var end := 16 + PacketSize(Join(tail[16], tail[17]));
      assert From(tail, end) == [] && Slice(tail, 16, end) == tail[16..];
      assert Unpacked([], LastPackets(es, map[])[Uuid(tail[..16]) := tail[16..]])
        == Some(LastPackets(es, map[])[Uuid(tail[..16]) := tail[16..]]);
    }
  }

  /** What is kept for an id is the packet of its last entry, if it has one. */
  lemma {:induction false} LastPacketOf(es: seq<Entry>, state: map<string, seq<Byte>>, k: nat)
    requires k < |es| && forall j :: k < j < |es| ==> es[j].id != es[k].id
    ensures Uuid(es[k].id) in LastPackets(es, state) && LastPackets(es, state)[Uuid(es[k].id)] == es[k].packet
    decreases |es|
  {
    if k > 0 {
      LastPacketOf(es[1..], state[Uuid(es[0].id) := es[0].packet], k - 1);
    } else {
      forall j | 0 <= j < |es[1..]| ensures es[1..][j].id != es[0].id {
        assert es[1..][j] == es[j + 1];
      }
      Untouched(es[1..], state[Uuid(es[0].id) := es[0].packet], es[0].id);
    }
  }

  lemma {:induction false} Untouched(es: seq<Entry>, state: map<string, seq<Byte>>, id: Id)
    requires Uuid(id) in state && forall j :: 0 <= j < |es| ==> es[j].id != id
    ensures Uuid(id) in LastPackets(es, state) && LastPackets(es, state)[Uuid(id)] == state[Uuid(id)]
    decreases |es|
  {
    if es != [] {
      if Uuid(es[0].id) == Uuid(id) {
        UuidInjective(es[0].id, id);
        assert false;
      }
      forall j | 0 <= j < |es[1..]| ensures es[1..][j].id != id {
        assert es[1..][j] == es[j + 1];
      }
      Untouched(es[1..], state[Uuid(es[0].id) := es[0].packet], id);
    }
  }
}

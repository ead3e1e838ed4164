/** The movement packet byte by byte: where each field is, which bit stands for it, what is sent and
    what is read, said of the bytes alone. */
module PacketBytes {
  import opened Sfu
  import opened Movement
  import opened MovementPackets
  import opened Unpacker

  // ---------------------------------------------------------------- fields and bits

  /** The fields follow each other without a gap, from behind the header to the end of the packet. */
  lemma FieldsFollow(k: nat)
    requires k < FIELDS
    ensures Address(0) == 2
    ensures Address(k) + Width(k) == if k + 1 < FIELDS then Address(k + 1) else 78
  {
  }

  function PowerOfTwo(n: nat): bv16 {
    if n == 0 then 1 else PowerOfTwo(n - 1) << 1
  }

  /** Each of the five objects has three fields of position and then four of rotation, and a bit for
      either, in the same order. */
  lemma BitOfField(k: nat)
    requires k < FIELDS
    ensures GroupBit(k) == PowerOfTwo(2 * (k / 7) + if k % 7 < 3 then 0 else 1)
  {
    Powers();
  }

  lemma Powers()
    ensures PowerOfTwo(0) == 1 && PowerOfTwo(1) == 2 && PowerOfTwo(2) == 4 && PowerOfTwo(3) == 8
    ensures PowerOfTwo(4) == 16 && PowerOfTwo(5) == 32 && PowerOfTwo(6) == 64 && PowerOfTwo(7) == 128
    ensures PowerOfTwo(8) == 256 && PowerOfTwo(9) == 512
  {
    assert PowerOfTwo(4) == 16;
    assert PowerOfTwo(8) == 256;
  }

  /** A position of the left hand, the right hand or the game piece, which are the last three objects. */
  predicate WidePosition(k: nat) {
    14 <= k < FIELDS && k % 7 < 3
  }

  lemma WideBit(k: nat)
    requires k < FIELDS
    ensures GroupBit(k) & WIDE != 0 <==> WidePosition(k)
  {
  }

  lemma WideOr(a: bv16, b: bv16)
    ensures (a | b) & WIDE != 0 <==> a & WIDE != 0 || b & WIDE != 0
  {
  }

  lemma {:induction false} WideMask(fields: seq<nat>)
    requires forall k :: k in fields ==> k < FIELDS
    ensures MaskOf(fields) & WIDE != 0 <==> exists k :: k in fields && WidePosition(k)
  {
    if fields != [] {
      var n := |fields| - 1;
      assert fields == fields[..n] + [fields[n]];
      assert fields[n] in fields && forall k :: k in fields[..n] ==> k in fields;
      WideMask(fields[..n]);
      WideBit(fields[n]);
      WideOr(MaskOf(fields[..n]), GroupBit(fields[n]));
    }
  }

  /** A call is wide exactly if, by then, a position of a hand or of the game piece was set. */
  lemma {:induction false} WideIff(us: seq<Update>)
    requires MovementPackets.Proper(us)
    ensures Mask(us) & WIDE != 0 <==> exists u, k :: u in us && k in u.order && WidePosition(k)
  {
    if us != [] {
      var n := |us| - 1;
      assert us == us[..n] + [us[n]] && us[n] in us;
      assert forall u :: u in us[..n] ==> u in us;
      WideIff(us[..n]);
      WideMask(us[n].order);
      WideOr(Mask(us[..n]), MaskOf(us[n].order));
    }
  }

  // ---------------------------------------------------------------- the header

  /** The header is stored with its low byte first, and is a signed number. */
  lemma HeaderBytes(low: Byte, high: Byte)
    ensures var h := Join(low, high);
      && (h & BASE_POS != 0 <==> low & 1 != 0) && (h & LEFT_HAND_POS != 0 <==> low & 16 != 0)
      && (h & RIGHT_HAND_POS != 0 <==> low & 64 != 0) && (h & GAME_PIECE_POS != 0 <==> high & 1 != 0)
      && (h & FULL_PACKET != 0 <==> high & 4 != 0) && (h & FREQUENT != 0 <==> high & 8 != 0)
      && (Below15(h) <==> high & 128 != 0 || (high == 0 && low < 15))
  {
  }

  /** Without a base position nothing is sent; with it the whole packet where the full-packet bit is set,
      and else the first 36 bytes where the header is below 15; a page that asks for it sends all. */
  lemma EmittedIs(b: seq<Byte>, full: bool)
    requires |b| == SIZE
    ensures Emitted(b, full) ==
      if full || (b[0] & 1 != 0 && b[1] & 4 != 0) then Some(b)
      else if b[0] & 1 != 0 && (b[1] & 128 != 0 || (b[1] == 0 && b[0] < 15)) then Some(b[..36])
      else None
  {
    HeaderBytes(b[0], b[1]);
  }

  /** On the receiving side a packet is as long as that bit says. */
  lemma SizeIs(low: Byte, high: Byte)
    ensures PacketSize(Join(low, high)) == if high & 4 != 0 then 78 else 36
  {
    HeaderBytes(low, high);
  }

  // ---------------------------------------------------------------- what is read

  /** Three fields of position, and four of rotation of which the first one is read last. */
  function HandAt(p: seq<Byte>, a: nat): Hand
    requires a + 14 <= |p|
  {
    Hand([p[a..a + 2], p[a + 2..a + 4], p[a + 4..a + 6]],
         [p[a + 8..a + 10], p[a + 10..a + 12], p[a + 12..a + 14], p[a + 6..a + 8]])
  }

  /** The packet ends before something that its header announces. */
  predicate CutOff(p: seq<Byte>)
    requires |p| >= 2
  {
    || (p[0] & 1 != 0 && |p| < if p[1] & 1 != 0 then 78 else 36)
    || (p[0] & 16 != 0 && |p| < 50)
    || (p[0] & 64 != 0 && |p| < 64)
  }

  lemma FieldBytes(p: seq<Byte>, k: nat, a: nat)
    requires 3 <= k < FIELDS && a == Address(k) && a + 2 <= |p|
    ensures FieldsIn(p)[k] == p[a..a + 2]
  {
  }

  lemma SevenFields(v: seq<seq<Byte>>, k: nat, f: seq<seq<Byte>>)
    requires k + 7 <= |v| && |f| == 7 && forall j :: 0 <= j < 7 ==> v[k + j] == f[j]
    ensures Pose(v, k) == Hand([f[0], f[1], f[2]], [f[4], f[5], f[6], f[3]])
  {
    assert v[k..k + 3] == [f[0], f[1], f[2]];
    assert v[k + 4..k + 7] + [v[k + 3]] == [f[4], f[5], f[6], f[3]];
  }

  lemma PoseAt(p: seq<Byte>, k: nat, a: nat)
    requires k == 14 || k == 21 || k == 28
    requires a == Address(k) && a + 14 <= |p|
    ensures Pose(FieldsIn(p), k) == HandAt(p, a)
  {
    var f := seq(7, j requires 0 <= j < 7 => p[a + 2 * j..a + 2 * j + 2]);
    forall j | 0 <= j < 7 ensures FieldsIn(p)[k + j] == f[j] {
      FieldBytes(p, k + j, a + 2 * j);
    }
    SevenFields(FieldsIn(p), k, f);
  }

  lemma BodyAt(p: seq<Byte>)
    requires 36 <= |p|
    ensures var v := FieldsIn(p);
      && v[0..3] == [p[2..6], p[6..10], p[10..14]]
      && Pose(v, 0).rotation == [p[16..18], p[18..20], p[20..22], p[14..16]]
      && Pose(v, 7).rotation == [p[30..32], p[32..34], p[34..36], p[28..30]]
  {
    var v := FieldsIn(p);
    assert v[0] == p[2..6] && v[1] == p[6..10] && v[2] == p[10..14];
    assert v[3] == p[14..16] && v[4] == p[16..18] && v[5] == p[18..20] && v[6] == p[20..22];
    assert v[10] == p[28..30] && v[11] == p[30..32] && v[12] == p[32..34] && v[13] == p[34..36];
    assert v[4..7] + [v[3]] == [v[4], v[5], v[6], v[3]];
    assert v[11..14] + [v[10]] == [v[11], v[12], v[13], v[10]];
  }

  /** What is read from any packet: nothing where it is cut off, and else the objects whose position its
      header announces, from their places. */
  lemma ReadsBytes(p: seq<Byte>)
    requires |p| >= 2
    ensures MovementToJSON(p).None? <==> CutOff(p)
    ensures !CutOff(p) ==>
      var json := MovementToJSON(p).value;
      && json.left == (if p[0] & 16 != 0 then Some(HandAt(p, 36)) else None)
      && json.right == (if p[0] & 64 != 0 then Some(HandAt(p, 50)) else None)
      && json.avatar ==
           if p[0] & 1 == 0 then None
           else Some(Avatar(p[1] & 8 != 0, [p[2..6], p[6..10], p[10..14]],
                            [p[16..18], p[18..20], p[20..22], p[14..16]],
                            [p[30..32], p[32..34], p[34..36], p[28..30]],
                            if p[1] & 1 != 0 then Some(HandAt(p, 64)) else None))
  {
    HeaderBytes(p[0], p[1]);
    if |p| >= 36 {
      BodyAt(p);
    }
    if |p| >= 50 {
      PoseAt(p, 14, 36);
    }
    if |p| >= 64 {
      PoseAt(p, 21, 50);
    }
    if |p| >= 78 {
      PoseAt(p, 28, 64);
    }
  }
}

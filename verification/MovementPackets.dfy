/** What one send interval puts on the wire, and what the receiver reads from it. */
module MovementPackets {
  import opened Sfu
  import opened Movement

  /** One call of `setMovement`: the frame and the order its fields come in. */
  datatype Update = Update(frame: Frame, order: seq<nat>)

  datatype Memory = Memory(bytes: seq<Byte>, header: bv16)

  ghost predicate Proper(us: seq<Update>) {
    forall u :: u in us ==> Enumerates(u.order, u.frame)
  }

  /** The transport after the calls of an interval, from the state that every tick leaves. */
  ghost function After(us: seq<Update>): (m: Memory)
    requires Proper(us)
    ensures |m.bytes| == SIZE
  {
    if us == [] then Memory(Zeros(), 0)
    else
      var n := |us| - 1;
      assert us[n] in us && forall u :: u in us[..n] ==> u in us;
      var m := After(us[..n]);
      var h := Widened(WithBits(m.header, us[n].order));
      Memory(Stored(m.bytes, us[n].frame, h), h)
  }

  /** The value that field `k` was last set to in the interval, or zero. */
  function Last(us: seq<Update>, k: nat): (v: seq<Byte>)
    requires k < FIELDS
    ensures |v| == Width(k)
  {
    if us == [] then seq(Width(k), i => 0)
    else if k in us[|us| - 1].frame then us[|us| - 1].frame[k]
    else Last(us[..|us| - 1], k)
  }

  function MaskOf(fields: seq<nat>): bv16
    requires forall k :: k in fields ==> k < FIELDS
  {
    if fields == [] then 0
    else
      var n := |fields| - 1;
      assert fields[n] in fields && forall k :: k in fields[..n] ==> k in fields;
      MaskOf(fields[..n]) | GroupBit(fields[n])
  }

  /** One bit for each group of which a field was set in the interval. */
  ghost function Mask(us: seq<Update>): bv16
    requires Proper(us)
  {
    if us == [] then 0
    else
      var n := |us| - 1;
      assert us[n] in us && forall u :: u in us[..n] ==> u in us;
      Mask(us[..n]) | MaskOf(us[n].order)
  }

  /** The number of calls from the first one on after which hand or game-piece data is there. */
  ghost function WideCalls(us: seq<Update>): nat
    requires Proper(us)
  {
    if us == [] then 0
    else
      var n := |us| - 1;
      assert forall u :: u in us[..n] ==> u in us;
      WideCalls(us[..n]) + if Mask(us) & WIDE != 0 then 1 else 0
  }

  // ---------------------------------------------------------------- the header

  const TOP: bv16 := 0xFC00

  lemma GroupBitFits(k: nat)
    requires k < FIELDS
    ensures GroupBit(k) & GROUPS == GroupBit(k) && GroupBit(k) & (GroupBit(k) - 1) == 0 && GroupBit(k) != 0
  {
  }

  lemma SetBit(h: bv16, bit: bv16)
    requires bit & GROUPS == bit && bit & (bit - 1) == 0
    ensures WithBit(h, bit) & GROUPS == (h & GROUPS) | bit
    ensures WithBit(h, bit) & TOP == h & TOP
  {
  }

  lemma Widen(h: bv16)
    ensures Widened(h) & GROUPS == h & GROUPS
    ensures Widened(h) & TOP == (h & TOP) + if h & GROUPS & WIDE != 0 then 0x400 else 0
  {
  }

  lemma OrAssociates(a: bv16, b: bv16, c: bv16)
    ensures a | (b | c) == (a | b) | c && a | 0 == a
  {
  }

  lemma BitStep(h: bv16, before: bv16, more: bv16, k: nat)
    requires k < FIELDS && h & GROUPS == before | more
    ensures WithBit(h, GroupBit(k)) & GROUPS == before | (more | GroupBit(k))
  {
    GroupBitFits(k);
    SetBit(h, GroupBit(k));
    OrAssociates(before, more, GroupBit(k));
  }

  lemma {:induction false} BitsSetFrom(h: bv16, low: bv16, fields: seq<nat>)
    requires h & GROUPS == low && forall k :: k in fields ==> k < FIELDS
    ensures WithBits(h, fields) & GROUPS == low | MaskOf(fields)
  {
    if fields == [] {
      OrAssociates(low, 0, 0);
    } else {
      var n := |fields| - 1;
      assert fields[n] in fields && forall x :: x in fields[..n] ==> x in fields;
      BitsSetFrom(h, low, fields[..n]);
      BitStep(WithBits(h, fields[..n]), low, MaskOf(fields[..n]), fields[n]);
    }
  }

  lemma BitsSet(h: bv16, fields: seq<nat>)
    requires forall k :: k in fields ==> k < FIELDS
    ensures WithBits(h, fields) & GROUPS == (h & GROUPS) | MaskOf(fields)
  {
    BitsSetFrom(h, h & GROUPS, fields);
  }

  lemma TopStep(h: bv16, k: nat)
    requires k < FIELDS
    ensures WithBit(h, GroupBit(k)) & TOP == h & TOP
  {
    GroupBitFits(k);
    SetBit(h, GroupBit(k));
  }

  lemma {:induction false} TopStays(h: bv16, fields: seq<nat>)
    requires forall k :: k in fields ==> k < FIELDS
    ensures WithBits(h, fields) & TOP == h & TOP
  {
    if fields != [] {
      var n := |fields| - 1;
      assert fields[n] in fields && forall x :: x in fields[..n] ==> x in fields;
      TopStays(h, fields[..n]);
      TopStep(WithBits(h, fields[..n]), fields[n]);
    }
  }

  /** The lower bits of the header are the groups that were touched. */
  lemma {:induction false} GroupsAre(us: seq<Update>)
    requires Proper(us)
    ensures After(us).header & GROUPS == Mask(us)
  {
    if us != [] {
      var n := |us| - 1;
      assert us[n] in us && forall u :: u in us[..n] ==> u in us;
      GroupsAre(us[..n]);
      BitsSet(After(us[..n]).header, us[n].order);
      Widen(WithBits(After(us[..n]).header, us[n].order));
    }
  }

  /** The two bits above the groups, which count. */
  function Counted(c: nat): bv16 {
    if c % 4 == 0 then 0 else if c % 4 == 1 then 0x400 else if c % 4 == 2 then 0x800 else 0xC00
  }

  lemma CountOne(top: bv16, c: nat)
    requires top & 0xC00 == Counted(c)
    ensures (top + 0x400) & 0xC00 == Counted(c + 1)
  {
    NextCount(top);
  }

  lemma NextCount(top: bv16)
    ensures (top + 0x400) & 0xC00 == ((top & 0xC00) + 0x400) & 0xC00
  {
  }

  /** The full-packet bit and the one above it count the wide calls, and without any the upper bits
      are clear. */
  lemma {:induction false} TopIs(us: seq<Update>)
    requires Proper(us)
    ensures After(us).header & TOP & 0xC00 == Counted(WideCalls(us))
    ensures WideCalls(us) == 0 ==> After(us).header & TOP == 0
  {
    if us != [] {
      var n := |us| - 1;
      assert us[n] in us && forall u :: u in us[..n] ==> u in us;
      TopIs(us[..n]);
      GroupsAre(us);
      var h := After(us[..n]).header;
      BitsSet(h, us[n].order);
      TopStays(h, us[n].order);
      Widen(WithBits(h, us[n].order));
      CountOne(h & TOP, WideCalls(us[..n]));
    }
  }

  lemma HeaderStored(us: seq<Update>)
    requires Proper(us)
    ensures HeaderAt(After(us).bytes) == After(us).header
  {
    if us != [] {
      assert us[|us| - 1] in us && forall u :: u in us[..|us| - 1] ==> u in us;
      JoinSplit(After(us).header);
    }
  }

  lemma OrKeepsWide(a: bv16, b: bv16)
    ensures (a | b) & WIDE == 0 ==> a & WIDE == 0
  {
  }

  lemma {:induction false} NotWideYet(us: seq<Update>)
    requires Proper(us)
    ensures Mask(us) & WIDE == 0 ==> WideCalls(us) == 0
  {
    if us != [] {
      var n := |us| - 1;
      assert us[n] in us && forall u :: u in us[..n] ==> u in us;
      NotWideYet(us[..n]);
      OrKeepsWide(Mask(us[..n]), MaskOf(us[n].order));
    }
  }

  /** What is known of the header at the tick. */
  lemma HeaderIs(us: seq<Update>)
    requires Proper(us)
    ensures var h := HeaderAt(After(us).bytes);
      && h & GROUPS == Mask(us) && h & TOP & 0xC00 == Counted(WideCalls(us))
      && (h & GROUPS & WIDE == 0 ==> h & TOP == 0) && (WideCalls(us) == 0 ==> h & TOP == 0)
  {
    HeaderStored(us);
    GroupsAre(us);
    TopIs(us);
    NotWideYet(us);
  }

  ghost predicate SameGroup(k: nat, j: nat)
    requires k < FIELDS && j < FIELDS
  {
    GroupBit(j) == GroupBit(k)
  }

  lemma OneOf(m: bv16, a: bv16, b: bv16)
    requires a != 0 && b != 0 && a & (a - 1) == 0 && b & (b - 1) == 0
    ensures (m | a) & b != 0 <==> m & b != 0 || a == b
  {
  }

  lemma {:induction false} MaskHas(fields: seq<nat>, bit: bv16)
    requires bit != 0 && bit & (bit - 1) == 0 && forall j :: j in fields ==> j < FIELDS
    ensures MaskOf(fields) & bit != 0 <==> exists j :: j in fields && GroupBit(j) == bit
  {
    if fields == [] {
      NoBits(bit);
    } else {
      var n := |fields| - 1;
      assert fields[n] in fields && forall x :: x in fields[..n] ==> x in fields;
      MaskHas(fields[..n], bit);
      GroupBitFits(fields[n]);
      OneOf(MaskOf(fields[..n]), GroupBit(fields[n]), bit);
      assert fields == fields[..n] + [fields[n]];
    }
  }

  /** The bit of a group is set exactly if a field of the group is among `fields`. */
  lemma MaskOfMeans(fields: seq<nat>, k: nat)
    requires k < FIELDS && forall j :: j in fields ==> j < FIELDS
    ensures MaskOf(fields) & GroupBit(k) != 0 <==> exists j :: j in fields && SameGroup(k, j)
  {
    GroupBitFits(k);
    MaskHas(fields, GroupBit(k));
  }

  lemma NoBits(bit: bv16)
    ensures 0 & bit == 0
  {
  }

  // ---------------------------------------------------------------- the fields

  function FieldAt(b: seq<Byte>, k: nat): seq<Byte>
    requires k < FIELDS && Address(k) + Width(k) <= |b|
  {
    b[Address(k)..Address(k) + Width(k)]
  }

  lemma FieldStored(b: seq<Byte>, frame: Frame, h: bv16, k: nat)
    requires |b| == SIZE && k < FIELDS
    ensures FieldAt(Stored(b, frame, h), k) == if k in frame then frame[k] else FieldAt(b, k)
  {
    forall i | Address(k) <= i < Address(k) + Width(k)
      ensures Stored(b, frame, h)[i] == if k in frame then frame[k][i - Address(k)] else b[i]
    {
      PlacesTile(k, i);
    }
  }

  /** Each field holds what it was last set to in this interval, or zero. */
  lemma {:induction false} FieldIs(us: seq<Update>, k: nat)
    requires Proper(us) && k < FIELDS
    ensures FieldAt(After(us).bytes, k) == Last(us, k)
  {
    if us != [] {
      var n := |us| - 1;
      assert us[n] in us && forall u :: u in us[..n] ==> u in us;
      FieldIs(us[..n], k);
      FieldStored(After(us[..n]).bytes, us[n].frame, After(us).header, k);
    }
  }

  // ---------------------------------------------------------------- reading

  datatype Hand = Hand(position: seq<seq<Byte>>, rotation: seq<seq<Byte>>)

  datatype Avatar = Avatar(frequent: bool, position: seq<seq<Byte>>, bodyRot: seq<seq<Byte>>,
      rotation: seq<seq<Byte>>, gamePiece: Option<Hand>)

  datatype Json = Json(avatar: Option<Avatar>, left: Option<Hand>, right: Option<Hand>)

  /** A position and the rotation after it, whose fields come as w, x, y, z and are read as x, y, z, w. */
  function Pose(v: seq<seq<Byte>>, k: nat): Hand
    requires k + 7 <= |v|
  {
    Hand(v[k..k + 3], v[k + 4..k + 7] + [v[k + 3]])
  }

  function ReadAll(h: bv16, v: seq<seq<Byte>>): Json
    requires |v| == FIELDS
  {
    Json(if h & BASE_POS == 0 then None
         else Some(Avatar(h & FREQUENT != 0, v[0..3], Pose(v, 0).rotation, Pose(v, 7).rotation,
                          if h & GAME_PIECE_POS != 0 then Some(Pose(v, 28)) else None)),
         if h & LEFT_HAND_POS != 0 then Some(Pose(v, 14)) else None,
         if h & RIGHT_HAND_POS != 0 then Some(Pose(v, 21)) else None)
  }

  /** The end of the last field that `movementToJSON` reads for this header. */
  function Extent(h: bv16): nat {
    if h & BASE_POS != 0 && h & GAME_PIECE_POS != 0 then SIZE
    else if h & RIGHT_HAND_POS != 0 then 64
    else if h & LEFT_HAND_POS != 0 then 50
    else if h & BASE_POS != 0 then SHORT
    else 2
  }

  function FieldsIn(p: seq<Byte>): (v: seq<seq<Byte>>)
    ensures |v| == FIELDS
  {
    seq(FIELDS, k requires 0 <= k < FIELDS => if Address(k) + Width(k) <= |p| then FieldAt(p, k) else [])
  }

  /** `movementToJSON`; reading past the end of the packet throws. */
  function MovementToJSON(p: seq<Byte>): Option<Json> {
    if |p| < 2 || |p| < Extent(HeaderAt(p)) then None
    else Some(ReadAll(HeaderAt(p), FieldsIn(p)))
  }

  function LastValues(us: seq<Update>): (v: seq<seq<Byte>>)
    ensures |v| == FIELDS
  {
    seq(FIELDS, k requires 0 <= k < FIELDS => Last(us, k))
  }

  /** What the interval said: the groups that were touched, with their last values. */
  ghost function Meant(us: seq<Update>): Json
    requires Proper(us)
  {
    ReadAll(Mask(us), LastValues(us))
  }

  lemma FieldsAre(us: seq<Update>)
    requires Proper(us)
    ensures FieldsIn(After(us).bytes) == LastValues(us)
  {
    forall k | 0 <= k < FIELDS ensures FieldsIn(After(us).bytes)[k] == LastValues(us)[k] {
      FieldIs(us, k);
    }
  }

  lemma GroupsOf(h: bv16)
    ensures h & GROUPS & BASE_POS == h & BASE_POS && h & GROUPS & LEFT_HAND_POS == h & LEFT_HAND_POS
    ensures h & GROUPS & RIGHT_HAND_POS == h & RIGHT_HAND_POS && h & GROUPS & GAME_PIECE_POS == h & GAME_PIECE_POS
    ensures h & GROUPS & FREQUENT == 0
  {
  }

  lemma ReadsSame(h: bv16, v: seq<seq<Byte>>)
    requires |v| == FIELDS
    ensures ReadAll(h, v) == ReadAll(h & GROUPS, v) <==> h & BASE_POS == 0 || h & FREQUENT == 0
  {
    GroupsOf(h);
  }

  /** The whole packet says what was meant, but for the `frequent` mark that wide calls can leave. */
  lemma FullReads(us: seq<Update>)
    requires Proper(us)
    ensures var h := HeaderAt(After(us).bytes);
      MovementToJSON(After(us).bytes) == Some(Meant(us)) <==> h & BASE_POS == 0 || h & FREQUENT == 0
  {
    HeaderIs(us);
    FieldsAre(us);
    ReadsSame(HeaderAt(After(us).bytes), LastValues(us));
  }

  lemma ShortHeader(b: seq<Byte>)
    requires |b| == SIZE
    ensures HeaderAt(b[..SHORT]) == HeaderAt(b)
    ensures forall k :: 0 <= k < 14 ==> FieldsIn(b[..SHORT])[k] == FieldsIn(b)[k]
  {
    forall k | 0 <= k < 14 ensures FieldsIn(b[..SHORT])[k] == FieldsIn(b)[k] {
      assert Address(k) + Width(k) <= SHORT;
      assert b[..SHORT][Address(k)..Address(k) + Width(k)] == b[Address(k)..Address(k) + Width(k)];
    }
  }

  lemma WideIs(h: bv16)
    ensures h & WIDE == 0 <==> h & LEFT_HAND_POS == 0 && h & RIGHT_HAND_POS == 0 && h & GAME_PIECE_POS == 0
  {
  }

  /** Without hands and game piece the 36 bytes read like all 78; with them they cannot be read. */
  lemma ShortReads(b: seq<Byte>)
    requires |b| == SIZE && HeaderAt(b) & BASE_POS != 0
    ensures MovementToJSON(b[..SHORT]) == if HeaderAt(b) & WIDE == 0 then MovementToJSON(b) else None
  {
    ShortHeader(b);
    WideIs(HeaderAt(b));
    ShortPoses(FieldsIn(b[..SHORT]), FieldsIn(b));
  }

  lemma ShortPoses(v: seq<seq<Byte>>, w: seq<seq<Byte>>)
    requires |v| == |w| == FIELDS && forall k :: 0 <= k < 14 ==> v[k] == w[k]
    ensures v[0..3] == w[0..3] && Pose(v, 0) == Pose(w, 0) && Pose(v, 7) == Pose(w, 7)
  {
    assert v[0..3] == w[0..3] && v[4..7] == w[4..7] && v[7..10] == w[7..10] && v[11..14] == w[11..14];
  }

  // ---------------------------------------------------------------- what arrives

  lemma ShortArrives(b: seq<Byte>, meant: Json)
    requires |b| == SIZE
    ensures HeaderAt(b) & BASE_POS != 0 ==>
      (MovementToJSON(b[..SHORT]) == Some(meant) <==> HeaderAt(b) & WIDE == 0 && MovementToJSON(b) == Some(meant))
  {
    if HeaderAt(b) & BASE_POS != 0 {
      ShortReads(b);
    }
  }

  /** How the tests on the header hang together. */
  lemma Cases(h: bv16)
    requires h & GROUPS & WIDE == 0 ==> h & TOP == 0
    ensures h & FULL_PACKET != 0 ==> !(h & GROUPS < 15)
    ensures h & FULL_PACKET == 0 && Below15(h) ==> (h & WIDE == 0 <==> h & GROUPS < 15)
    ensures h & GROUPS < 15 ==> h & FULL_PACKET == 0 && h & FREQUENT == 0 && Below15(h)
    ensures h & GROUPS & BASE_POS == h & BASE_POS
  {
  }

  lemma Counts(h: bv16, c: nat)
    requires h & TOP & 0xC00 == Counted(c)
    ensures h & FULL_PACKET != 0 <==> c % 2 == 1
    ensures h & FULL_PACKET != 0 && h & FREQUENT == 0 <==> c % 4 == 1
    ensures h & FREQUENT == 0 <==> c % 4 <= 1
  {
    TwoBits(h);
  }

  lemma TwoBits(h: bv16)
    ensures h & FULL_PACKET != 0 <==> h & TOP & 0xC00 == 0x400 || h & TOP & 0xC00 == 0xC00
    ensures h & FREQUENT != 0 <==> h & TOP & 0xC00 == 0x800 || h & TOP & 0xC00 == 0xC00
  {
  }

  /** The cases of the tick, told apart by what is known of the header. */
  lemma Arrival(b: seq<Byte>, meant: Json, p: Option<seq<Byte>>, base: bool, odd: bool, two: bool, low: bool,
      narrow: bool, wide: bool)
    requires |b| == SIZE
    requires p == if !base then None else if odd then Some(b) else if low then Some(b[..SHORT]) else None
    requires MovementToJSON(b) == Some(meant) <==> !base || !two
    requires base ==> (MovementToJSON(b[..SHORT]) == Some(meant) <==> !wide && MovementToJSON(b) == Some(meant))
    requires odd ==> !narrow
    requires !odd && low ==> (!wide <==> narrow)
    requires narrow ==> !odd && !two && low
    ensures p.Some? && MovementToJSON(p.value) == Some(meant) <==> base && ((odd && !two) || narrow)
  {
  }

  /** The interval arrives as it was meant exactly if the base position was set, and either one wide
      call was made - or one more than a multiple of four - or nothing but part of the base and head
      was set: a header of 15, all of it, is never sent. */
  lemma ArrivesIff(us: seq<Update>)
    requires Proper(us)
    ensures var p := Emitted(After(us).bytes, false);
      p.Some? && MovementToJSON(p.value) == Some(Meant(us)) <==>
        Mask(us) & BASE_POS != 0 && (WideCalls(us) % 4 == 1 || Mask(us) < 15)
  {
    var b := After(us).bytes;
    var h := HeaderAt(b);
    HeaderIs(us);
    FullReads(us);
    ShortArrives(b, Meant(us));
    Cases(h);
    Counts(h, WideCalls(us));
    Arrival(b, Meant(us), Emitted(b, false), h & BASE_POS != 0, h & FULL_PACKET != 0, h & FREQUENT != 0, Below15(h),
            h & GROUPS < 15, h & WIDE != 0);
  }

  lemma FewCalls(h: bv16, c: nat)
    requires h & TOP & 0xC00 == Counted(c) && c <= 1 && (c == 0 ==> h & TOP == 0)
    ensures h & FULL_PACKET != 0 || Below15(h) ==> c == 1 || h & GROUPS < 15
  {
    Counts(h, c);
    NoTop(h);
  }

  lemma NoTop(h: bv16)
    ensures h & TOP == 0 && Below15(h) ==> h & GROUPS < 15
  {
  }

  lemma SentIf(us: seq<Update>)
    requires Proper(us) && Emitted(After(us).bytes, false).Some?
    ensures var h := HeaderAt(After(us).bytes);
      Mask(us) & BASE_POS != 0 && (h & FULL_PACKET != 0 || Below15(h))
  {
    HeaderStored(us);
    GroupsAre(us);
    GroupsOf(After(us).header);
  }

  lemma FewWide(us: seq<Update>)
    requires Proper(us) && WideCalls(us) <= 1
    ensures var h := HeaderAt(After(us).bytes);
      h & FULL_PACKET != 0 || Below15(h) ==> WideCalls(us) == 1 || Mask(us) < 15
  {
    HeaderIs(us);
    FewCalls(HeaderAt(After(us).bytes), WideCalls(us));
  }

  /** With at most one wide call in the interval, whatever is sent is what was meant. */
  lemma AtMostOneWideCall(us: seq<Update>)
    requires Proper(us) && WideCalls(us) <= 1
    ensures var p := Emitted(After(us).bytes, false); p.Some? ==> MovementToJSON(p.value) == Some(Meant(us))
  {
    if Emitted(After(us).bytes, false).Some? {
      SentIf(us);
      FewWide(us);
      ArrivesIff(us);
    }
  }

  /** With the switch everything is sent, and only the `frequent` mark can be wrong. */
  lemma ArrivesWithSwitchIff(us: seq<Update>)
    requires Proper(us)
    ensures Emitted(After(us).bytes, true) == Some(After(us).bytes)
    ensures MovementToJSON(After(us).bytes) == Some(Meant(us)) <==> Mask(us) & BASE_POS == 0 || WideCalls(us) % 4 <= 1
  {
    FullReads(us);
    HeaderIs(us);
    GroupsOf(HeaderAt(After(us).bytes));
    Counts(HeaderAt(After(us).bytes), WideCalls(us));
  }
}

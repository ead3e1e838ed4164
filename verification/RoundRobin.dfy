/** How evenly the round robin spreads selections over a room's routers, and what the loads count.

    The index is shared by all rooms and wraps at the width of `usize`. */
module RoundRobin {
  import opened Sfu

  /** The position picked by the selection that comes `j` after index `i`, in a group of `n`. */
  function Picked(i: nat, j: nat, n: nat): nat
    requires n > 0
  {
    ((i + j) % USIZE_MODULUS) % n
  }

  /** How often position `p` is picked by the `k` selections from index `i` on. */
  function Picks(i: nat, k: nat, n: nat, p: nat): nat
    requires n > 0
  {
    if k == 0 then 0 else Picks(i, k - 1, n, p) + if Picked(i, k - 1, n) == p then 1 else 0
  }

  ghost predicate Fair(i: nat, k: nat, n: nat)
    requires n > 0
  {
    forall p, q :: 0 <= p < n && 0 <= q < n ==> Picks(i, k, n, p) <= Picks(i, k, n, q) + 1
  }

  // ---------------------------------------------------------------- what the handler does

  /** The routers that `k` selections in a row for `room` return. */
  function Selections(s: Server, room: Room, k: nat): seq<Option<RouterId>>
    decreases k
  {
    if k == 0 then [] else [Selected(s, room)] + Selections(AfterSelect(s, room), room, k - 1)
  }

  lemma {:induction false} SelectionsAre(s: Server, room: Room, k: nat, j: nat)
    requires room in s.rooms && s.rooms[room] != [] && s.index < USIZE_MODULUS && j < k
    ensures |Selections(s, room, k)| == k
    ensures Selections(s, room, k)[j] == Some(s.rooms[room][Picked(s.index, j, |s.rooms[room]|)])
    decreases k
  {
    var s' := AfterSelect(s, room);
    IndexMoves(s, room);
    if j > 0 {
      SelectionsAre(s', room, k - 1, j - 1);
      PickedLater(s.index, j, |s.rooms[room]|);
    } else if k > 1 {
      SelectionsAre(s', room, k - 1, 0);
    }
  }

  lemma IndexMoves(s: Server, room: Room)
    requires room in s.rooms && s.rooms[room] != [] && s.index < USIZE_MODULUS
    ensures var s' := AfterSelect(s, room);
      s'.rooms == s.rooms && s'.index == (s.index + 1) % USIZE_MODULUS
    ensures Selected(s, room) == Some(s.rooms[room][Picked(s.index, 0, |s.rooms[room]|)])
  {
  }

  lemma PickedLater(i: nat, j: nat, n: nat)
    requires i < USIZE_MODULUS && j > 0 && n > 0
    ensures Picked((i + 1) % USIZE_MODULUS, j - 1, n) == Picked(i, j, n)
  {
    WrapOnce(i, j);
  }

  lemma WrapOnce(i: nat, j: nat)
    requires i < USIZE_MODULUS && j > 0
    ensures ((i + 1) % USIZE_MODULUS + (j - 1)) % USIZE_MODULUS == (i + j) % USIZE_MODULUS
    ensures var before := (i + (j - 1)) % USIZE_MODULUS;
      (i + j) % USIZE_MODULUS == if before + 1 == USIZE_MODULUS then 0 else before + 1
  {
  }

  // ---------------------------------------------------------------- remainders

  lemma AtLeastOnce(n: nat, y: int)
    requires n > 0 && y >= 1
    ensures n * y >= n
  {
    assert n * y == n * (y - 1) + n && n * (y - 1) >= 0;
  }

  lemma UniqueRemainder(n: nat, x: int, r: nat, y: int, s: nat)
    requires r < n && s < n && n * x + r == n * y + s
    ensures x == y && r == s
  {
    assert n * (x - y) == n * x - n * y;
    if x > y {
      AtLeastOnce(n, x - y);
    } else if y > x {
      assert n * (y - x) == n * y - n * x;
      AtLeastOnce(n, y - x);
    }
  }

  lemma RemainderOf(n: nat, a: nat, p: nat)
    requires p < n
    ensures (n * a + p) % n == p
  {
    var m := n * a + p;
    UniqueRemainder(n, a, p, m / n, m % n);
  }

  function Next(p: nat, n: nat): nat {
    if p + 1 >= n then 0 else p + 1
  }

  lemma NextRemainder(x: nat, n: nat)
    requires n > 0
    ensures (x + 1) % n == Next(x % n, n)
  {
    var a, r := x / n, x % n;
    assert x == n * a + r;
    if r + 1 == n {
      assert x + 1 == n * (a + 1) + 0;
      RemainderOf(n, a + 1, 0);
    } else {
      assert x + 1 == n * a + (r + 1);
      RemainderOf(n, a, r + 1);
    }
  }

  // ---------------------------------------------------------------- fairness

  /** The position `k` steps after `r`, going round. */
  function Turned(r: nat, k: nat, n: nat): nat {
    if k == 0 then r else Next(Turned(r, k - 1, n), n)
  }

  /** The index goes round the group one position at a time, until it wraps, and then as well if
      the group comes out even. */
  lemma {:induction false} PickedTurns(i: nat, j: nat, n: nat)
    requires n > 0 && i < USIZE_MODULUS && (i + j < USIZE_MODULUS || USIZE_MODULUS % n == 0)
    ensures Picked(i, j, n) == Turned(i % n, j, n)
    decreases j
  {
    if j > 0 {
      var before := (i + (j - 1)) % USIZE_MODULUS;
      PickedTurns(i, j - 1, n);
      assert i + j < USIZE_MODULUS ==> before + 1 < USIZE_MODULUS;
      WrapOnce(i, j);
      PickedNext(before, n);
    }
  }

  lemma PickedNext(before: nat, n: nat)
    requires n > 0 && (before + 1 < USIZE_MODULUS || USIZE_MODULUS % n == 0)
    requires before < USIZE_MODULUS
    ensures (if before + 1 == USIZE_MODULUS then 0 else before + 1) % n == Next(before % n, n)
  {
    NextRemainder(before, n);
    ZeroRemainder(n);
  }

  lemma ZeroRemainder(n: nat)
    requires n > 0
    ensures 0 % n == 0
  {
  }

  function PicksTurned(r: nat, k: nat, n: nat, p: nat): nat {
    if k == 0 then 0 else PicksTurned(r, k - 1, n, p) + if Turned(r, k - 1, n) == p then 1 else 0
  }

  /** Going round from `r`, position `p` comes before position `t`. */
  predicate Between(r: nat, p: nat, t: nat) {
    if r <= t then r <= p < t else p >= r || p < t
  }

  /** After any number of steps, the positions passed in the last round have one pick more. */
  lemma {:induction false} Spread(r: nat, k: nat, n: nat) returns (m: nat)
    requires r < n
    ensures Turned(r, k, n) < n
    ensures forall p :: 0 <= p < n ==> PicksTurned(r, k, n, p) == m + if Between(r, p, Turned(r, k, n)) then 1 else 0
    decreases k
  {
    m := 0;
    if k > 0 {
      m := Spread(r, k - 1, n);
      var t := Turned(r, k - 1, n);
      var full := Next(t, n) == r;
      forall p | 0 <= p < n
        ensures PicksTurned(r, k, n, p) == (if full then m + 1 else m) + if Between(r, p, Next(t, n)) then 1 else 0
      {
        assert PicksTurned(r, k, n, p) == PicksTurned(r, k - 1, n, p) + if t == p then 1 else 0;
      }
      m := if full then m + 1 else m;
    }
  }

  lemma {:induction false} PicksAre(i: nat, k: nat, n: nat, p: nat)
    requires n > 0 && i < USIZE_MODULUS && (i + k <= USIZE_MODULUS || USIZE_MODULUS % n == 0)
    ensures Picks(i, k, n, p) == PicksTurned(i % n, k, n, p)
    decreases k
  {
    if k > 0 {
      PicksAre(i, k - 1, n, p);
      PickedTurns(i, k - 1, n);
    }
  }

  /** As long as the index does not wrap, picks differ by at most one; and across the wrap too if
      the size of the group divides the modulus. */
  lemma FairWindow(i: nat, k: nat, n: nat)
    requires n > 0 && i < USIZE_MODULUS && (i + k <= USIZE_MODULUS || USIZE_MODULUS % n == 0)
    ensures Fair(i, k, n)
  {
    var m := Spread(i % n, k, n);
    forall p | 0 <= p < n ensures m <= Picks(i, k, n, p) <= m + 1 {
      PicksAre(i, k, n, p);
    }
  }

  lemma {:induction false} TurnedFromZero(j: nat, n: nat)
    requires j < n
    ensures Turned(0, j, n) == j
  {
    if j > 0 {
      TurnedFromZero(j - 1, n);
    }
  }

  lemma {:induction false} UpTo(i: nat, k: nat, n: nat, p: nat)
    requires n > 0 && forall j :: 0 <= j < k ==> Picked(i, j, n) == j
    ensures Picks(i, k, n, p) == if p < k then 1 else 0
  {
    if k > 0 {
      UpTo(i, k - 1, n, p);
      assert Picked(i, k - 1, n) == k - 1;
    }
  }

  lemma Aligned(n: nat)
    requires n > 0
    ensures (USIZE_MODULUS - USIZE_MODULUS % n) % n == 0
  {
    var a, q := USIZE_MODULUS / n, USIZE_MODULUS % n;
    assert USIZE_MODULUS - q == n * a + 0;
    RemainderOf(n, a, 0);
  }

  /** Where the wrap does not come out even, a window around it picks position 0 twice and the last
      position not at all. */
  lemma UnevenWrap(n: nat)
    requires 0 < n < USIZE_MODULUS && USIZE_MODULUS % n != 0
    ensures var q := USIZE_MODULUS % n; q < USIZE_MODULUS && !Fair(USIZE_MODULUS - q, q + 1, n)
  {
    var q := USIZE_MODULUS % n;
    var i := USIZE_MODULUS - q;
    Aligned(n);
    RemainderBelow(n);
    forall j | 0 <= j < q ensures Picked(i, j, n) == j {
      PickedTurns(i, j, n);
      TurnedFromZero(j, n);
    }
    UpTo(i, q, n, 0);
    UpTo(i, q, n, n - 1);
    ZeroRemainder(n);
    assert Picked(i, q, n) == 0;
    assert Picks(i, q + 1, n, 0) == 2 && Picks(i, q + 1, n, n - 1) == 0;
  }

  lemma RemainderBelow(n: nat)
    requires 0 < n < USIZE_MODULUS
    ensures USIZE_MODULUS % n < n && USIZE_MODULUS % n < USIZE_MODULUS
  {
  }

  /** Every window is fair, wherever the index stands, exactly if the size of the group divides the
      modulus at which the index wraps. */
  lemma FairAlwaysIff(n: nat)
    requires 0 < n < USIZE_MODULUS
    ensures (forall i, k :: 0 <= i < USIZE_MODULUS && 0 <= k ==> Fair(i, k, n)) <==> USIZE_MODULUS % n == 0
  {
    if USIZE_MODULUS % n == 0 {
      forall i, k | 0 <= i < USIZE_MODULUS && 0 <= k ensures Fair(i, k, n) {
        FairWindow(i, k, n);
      }
    } else {
      UnevenWrap(n);
      assert !Fair(USIZE_MODULUS - USIZE_MODULUS % n, USIZE_MODULUS % n + 1, n);
    }
  }

  function CountOf(rs: seq<Option<RouterId>>, r: RouterId): nat {
    if rs == [] then 0 else CountOf(rs[..|rs| - 1], r) + if rs[|rs| - 1] == Some(r) then 1 else 0
  }

  lemma {:induction false} CountsArePicks(s: Server, room: Room, k: nat, m: nat, p: nat)
    requires room in s.rooms && s.index < USIZE_MODULUS && Distinct(s.rooms[room]) && p < |s.rooms[room]|
    requires m <= k && |Selections(s, room, k)| == k
    ensures CountOf(Selections(s, room, k)[..m], s.rooms[room][p]) == Picks(s.index, m, |s.rooms[room]|, p)
    decreases m
  {
    if m > 0 {
      var all := Selections(s, room, k);
      CountsArePicks(s, room, k, m - 1, p);
      SelectionsAre(s, room, k, m - 1);
      assert all[..m][..m - 1] == all[..m - 1];
    }
  }

  /** Of `k` selections in a row for one room, its routers get equal shares up to one. */
  lemma FairSelections(s: Server, room: Room, k: nat, p: nat, q: nat)
    requires room in s.rooms && s.index < USIZE_MODULUS && Distinct(s.rooms[room])
    requires p < |s.rooms[room]| && q < |s.rooms[room]|
    requires s.index + k <= USIZE_MODULUS || USIZE_MODULUS % |s.rooms[room]| == 0
    ensures CountOf(Selections(s, room, k), s.rooms[room][p]) <= CountOf(Selections(s, room, k), s.rooms[room][q]) + 1
  {
    if k > 0 {
      SelectionsAre(s, room, k, 0);
      CountsArePicks(s, room, k, k, p);
      CountsArePicks(s, room, k, k, q);
      assert Selections(s, room, k)[..k] == Selections(s, room, k);
      FairWindow(s.index, k, |s.rooms[room]|);
    }
  }

  // ---------------------------------------------------------------- loads

  /** `add` or `remove` for a worker. */
  datatype Change = Add(worker: WorkerId) | Remove(worker: WorkerId)

  function LoadsAfter(cs: seq<Change>): map<WorkerId, nat> {
    if cs == [] then map[]
    else
      var loads := LoadsAfter(cs[..|cs| - 1]);
      match cs[|cs| - 1]
      case Add(w) => LoadAdd(loads, w)
      case Remove(w) => LoadRemove(loads, w)
  }

  function LoadOf(loads: map<WorkerId, nat>, w: WorkerId): nat {
    if w in loads then loads[w] else 0
  }

  /** Adds minus removes of worker `w`. */
  function Net(cs: seq<Change>, w: WorkerId): int {
    if cs == [] then 0
    else Net(cs[..|cs| - 1], w) + Delta(cs[|cs| - 1], w)
  }

  function Min(a: int, b: int): int {
    if a < b then a else b
  }

  /** The lowest that adds minus removes ever was. */
  function Lowest(cs: seq<Change>, w: WorkerId): (low: int)
    ensures low <= 0
    ensures forall k :: 0 <= k <= |cs| ==> low <= Net(cs[..k], w)
    ensures exists k :: 0 <= k <= |cs| && low == Net(cs[..k], w)
  {
    if cs == [] then
      assert cs[..0] == cs;
      0
    else
      var n := |cs| - 1;
      var low := Lowest(cs[..n], w);
      assert forall k :: 0 <= k <= n ==> cs[..n][..k] == cs[..k];
      assert cs[..|cs|] == cs;
      Min(low, Net(cs, w))
  }

  /** The load never reaches the width of its counter. */
  ghost predicate Fits(cs: seq<Change>, w: WorkerId) {
    forall k :: 0 <= k <= |cs| ==> Net(cs[..k], w) - Lowest(cs[..k], w) < U32_MODULUS
  }

  /** The load is how far adds minus removes are above their lowest. */
  lemma {:induction false} LoadIs(cs: seq<Change>, w: WorkerId)
    requires Fits(cs, w)
    ensures LoadOf(LoadsAfter(cs), w) == Net(cs, w) - Lowest(cs, w)
  {
    if cs != [] {
      var n := |cs| - 1;
      assert forall k :: 0 <= k <= n ==> cs[..n][..k] == cs[..k];
      LoadIs(cs[..n], w);
      assert cs[..|cs|] == cs && cs[..n][..n] == cs[..n];
      LoadStep(LoadsAfter(cs[..n]), cs[n], w, Net(cs[..n], w), Lowest(cs[..n], w));
    }
  }

  function Delta(c: Change, w: WorkerId): int {
    match c
    case Add(x) => if x == w then 1 else 0
    case Remove(x) => if x == w then -1 else 0
  }

  lemma LoadStep(loads: map<WorkerId, nat>, c: Change, w: WorkerId, net: int, low: int)
    requires LoadOf(loads, w) == net - low && net + Delta(c, w) - Min(low, net + Delta(c, w)) < U32_MODULUS
    ensures var loads' := match c case Add(x) => LoadAdd(loads, x) case Remove(x) => LoadRemove(loads, x);
      LoadOf(loads', w) == net + Delta(c, w) - Min(low, net + Delta(c, w))
  {
  }

  /** A worker's load is its adds minus its removes exactly if no prefix of the history has more
      removes than adds. */
  lemma LoadCountsIff(cs: seq<Change>, w: WorkerId)
    requires Fits(cs, w)
    ensures LoadOf(LoadsAfter(cs), w) == Net(cs, w) <==> forall k :: 0 <= k <= |cs| ==> Net(cs[..k], w) >= 0
  {
    LoadIs(cs, w);
    var k :| 0 <= k <= |cs| && Lowest(cs, w) == Net(cs[..k], w);
    assert cs[..0] == [] && Net(cs[..0], w) == 0;
  }

  // ---------------------------------------------------------------- loads of one server

  /** The server after `k` selections in a row for `room`. */
  function Selecting(s: Server, room: Room, k: nat): Server
    decreases k
  {
    if k == 0 then s else Selecting(AfterSelect(s, room), room, k - 1)
  }

  /** How many of these selections picked a router on worker `w`. */
  function OnWorker(rs: seq<Option<RouterId>>, workerOf: map<RouterId, WorkerId>, w: WorkerId): nat {
    if rs == [] then 0
    else (if rs[0].Some? && rs[0].value in workerOf && workerOf[rs[0].value] == w then 1 else 0)
         + OnWorker(rs[1..], workerOf, w)
  }

  /** Each selection adds one to the load of the worker of the router that it hands out, and nothing to
      any other. */
  lemma {:induction false} SelectionsLoad(s: Server, room: Room, k: nat, w: WorkerId)
    requires LoadOf(s.loads, w) + k < U32_MODULUS
    ensures LoadOf(Selecting(s, room, k).loads, w) ==
      LoadOf(s.loads, w) + OnWorker(Selections(s, room, k), s.workerOf, w)
    decreases k
  {
    if k > 0 {
      var s' := AfterSelect(s, room);
      assert LoadOf(s'.loads, w) ==
        LoadOf(s.loads, w) + OnWorker([Selected(s, room)], s.workerOf, w) <= LoadOf(s.loads, w) + 1;
      SelectionsLoad(s', room, k - 1, w);
    }
  }

  function GroupOn(group: seq<RouterId>, workerOf: map<RouterId, WorkerId>, w: WorkerId): nat {
    if group == [] then 0
    else GroupOn(group[..|group| - 1], workerOf, w)
         + if group[|group| - 1] in workerOf && workerOf[group[|group| - 1]] == w then 1 else 0
  }

  function Max(a: int, b: int): int {
    if a < b then b else a
  }

  lemma {:induction false} UnloadIs(loads: map<WorkerId, nat>, workerOf: map<RouterId, WorkerId>, group: seq<RouterId>,
      w: WorkerId)
    ensures LoadOf(Unload(loads, workerOf, group), w) == Max(0, LoadOf(loads, w) - GroupOn(group, workerOf, w))
  {
    if group != [] {
      UnloadIs(loads, workerOf, group[..|group| - 1], w);
    }
  }

  /** A teardown takes one off the load of each worker for each of the room's routers on it, and never
      more than there is. */
  lemma TeardownLoads(s: Server, room: Room, gone: set<RouterId>, w: WorkerId)
    requires room in s.rooms
    ensures LoadOf(Teardown(s, room, gone).loads, w) ==
      Max(0, LoadOf(s.loads, w) - GroupOn(s.rooms[room], s.workerOf, w))
  {
    UnloadIs(s.loads, s.workerOf, s.rooms[room], w);
  }
}

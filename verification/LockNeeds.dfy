/** Which locks each handler takes on which path, said handler by handler, and that its program takes
    these and no others. */
module LockNeeds {
  import opened Locks
  import opened LockPrograms

  function Taken(steps: seq<Step>): set<Lock> {
    set s | s in steps && s.Down? :: s.lock
  }

  function TakenIn(rounds: seq<seq<Step>>): set<Lock> {
    if rounds == [] then {} else Taken(rounds[0]) + TakenIn(rounds[1..])
  }

  // ---------------------------------------------------------------- what a handler needs

  function Only(b: bool, locks: set<Lock>): set<Lock> {
    if b then locks else {}
  }

  /** A router is looked for in the room, and its worker counts the selection. */
  function ToSelect(p: Path): set<Lock> {
    {RoomRouters} + Only(p.found, {Routers2Workers}) + Only(p.found && p.worker, {Loads})
  }

  /** What the loops over peers and producers find. */
  function Looks(lists: seq<seq<Look>>): set<Look> {
    set looks, look | looks in lists && look in looks :: look
  }

  function ToConsume(lists: seq<seq<Look>>, producers: Lock, consumed: Lock): set<Lock> {
    Only(lists != [], {producers}) + LookNeeds(Looks(lists), consumed)
  }

  /** A look at the records, the way to the consumer's router unless it was consumed already, and a
      consumer if it can be. */
  function LookNeeds(looks: set<Look>, consumed: Lock): set<Lock> {
    Only(looks != {}, {consumed})
    + Only(Unable in looks || Consumable in looks, {Transport2Router, Routers})
    + Only(Consumable in looks, {Consumers})
  }

  /** The books of an egress server. */
  const BOOKS := {Producers, Consumers, AudioProducers, DataConsumers, DataProducers, VideoProducers, VideoConsumed,
    AudioConsumed, MovementConsumed, EventConsumed}

  function ToAnswer(p: Path): set<Lock> {
    {Relays}
    + Only(!p.kept, ToSelect(p))
    + Only(!p.kept && p.found, {Routers, RelayRouters})
    + Only(!p.kept && p.found && p.named, {PendingRelays})
  }

  function ToRelay(p: Path): set<Lock> {
    Only(p.kind != NoKind, {Relays, RoomRouters, RelayRouters})
    + Only(p.kind != NoKind && p.count > 0, {Routers})
    + Only(p.kind == AudioKind, {AudioProducers, Producers}) + Only(p.kind == VideoKind, {VideoProducers, Producers})
    + Only(p.kind == DataKind, {DataProducers})
  }

  /** An audio or video producer of an ingress server: its list, the way to the relay, and its consumer. */
  function ToProduce(kind: Kind, reach: nat): set<Lock> {
    if kind != AudioKind && kind != VideoKind then {}
    else
      (if kind == AudioKind then {AudioProducers, Producers} else {VideoProducers})
      + Only(reach >= 1, {Transport2Router}) + Only(reach >= 2, {Relays})
      + Only(reach >= 3, {Consumers, Producers})
  }

  function Needs(h: Handler, p: Path): set<Lock> {
    match h
    case SelectRouter => ToSelect(p)
    case CreateGroup =>
      {RoomRouters} + Only(!p.found, {Workers}) + Only(!p.found && p.count > 0, {Routers, Routers2Workers})
    case CreateIngress =>
      ToSelect(p) + Only(p.found, {Routers, WebrtcServers, Transport2Router, Endpoints})
      + Only(p.found && p.present != [], {Relays})
    case CreateEgress =>
      ToSelect(p) + Only(p.found, {Routers}) + Only(p.found && p.reach >= 1, {WebrtcServers})
      + Only(p.found && p.reach >= 2, {Transport2Router, Endpoints})
    case DestroyGroup =>
      {RoomRouters} + Only(p.found, {PendingRelays, Relays, RelayRouters, Routers2Workers, Loads, Routers})
    case RelayProducer => ToAnswer(p) + Only(p.kept || (p.found && p.named), ToRelay(p))
    case Disconnect =>
      BOOKS + Only(p.reach >= 1, {Transport2Router}) + Only(p.reach >= 2, {Routers2Workers})
      + Only(p.reach >= 3, {Loads})
    case AudioRequest => ToConsume(p.lists, AudioProducers, AudioConsumed)
    case VideoRequest => ToConsume(p.lists, VideoProducers, VideoConsumed)
    case MovementRequest => Only(p.count > 0, {MovementConsumed, DataConsumers})
    case EventRequest => Only(p.count > 0, {EventConsumed, DataConsumers})
    case StoreOffer => {PendingRelays}
    case ConnectPipe => {Relays}
    case TransportClosed => {Transport2Router, Endpoints}
    case RouterClosed => {Relays}
    case ProduceMedia => ToProduce(p.kind, p.reach)
    case ProduceMovement => {Transport2Router, Relays, Endpoints} + {MovementConsumed, DataProducers, DataConsumers}
    case ProduceEvents => {Transport2Router, Relays, Endpoints} + {EventConsumed, DataProducers, DataConsumers}
    case ProducerEnded => {Producers, Consumers}
    case PauseConsumer => {Consumers}
    case PauseProducer => {AudioProducers}
    case CloseProducer => {VideoProducers}
  }

  // ---------------------------------------------------------------- programs piece by piece

  lemma TakenSum(a: seq<Step>, b: seq<Step>)
    ensures Taken(a + b) == Taken(a) + Taken(b)
  {
    assert forall s :: s in a + b <==> s in a || s in b;
  }

  lemma {:induction false} TakenInSum(a: seq<seq<Step>>, b: seq<seq<Step>>)
    ensures TakenIn(a + b) == TakenIn(a) + TakenIn(b)
  {
    if a == [] {
      assert a + b == b;
    } else {
      assert (a + b)[0] == a[0] && (a + b)[1..] == a[1..] + b;
      TakenInSum(a[1..], b);
    }
  }

  lemma {:induction false} TakenFlat(rounds: seq<seq<Step>>)
    ensures Taken(Flat(rounds)) == TakenIn(rounds)
  {
    if rounds != [] {
      TakenFlat(rounds[1..]);
      TakenSum(rounds[0], Flat(rounds[1..]));
    }
  }

  lemma OneRound(round: seq<Step>)
    ensures TakenIn([round]) == Taken(round)
  {
    assert TakenIn([round]) == Taken(round) + TakenIn([round][1..]);
  }

  lemma FirstRound(round: seq<Step>, rest: seq<seq<Step>>)
    ensures TakenIn([round] + rest) == Taken(round) + TakenIn(rest)
  {
    OneRound(round);
    TakenInSum([round], rest);
  }

  lemma TouchTakes(c: Chain, l: Lock)
    ensures Taken(Touch(c, l)) == {l}
  {
    assert Down(c, l) in Touch(c, l);
  }

  lemma NestTakes(c: Chain, l: Lock, k: Lock)
    ensures Taken(Nest(c, l, k)) == {l, k}
  {
    assert Down(c, l) in Nest(c, l, k) && Down(c, k) in Nest(c, l, k);
  }

  lemma {:induction false} UpsTake(n: nat)
    ensures Taken(Ups(n)) == {}
  {
    if n > 0 {
      UpsTake(n - 1);
      TakenSum([Up], Ups(n - 1));
    }
  }

  function LocksAt(c: Chain, n: nat, k: nat): set<Lock>
    decreases k - n
  {
    if n >= k then {} else {LockAt(c, n)} + LocksAt(c, n + 1, k)
  }

  lemma {:induction false} DownsTake(c: Chain, n: nat, k: nat)
    requires n <= k
    ensures Taken(Downs(c, n, k)) == LocksAt(c, n, k)
    decreases k - n
  {
    if n < k {
      DownsTake(c, n + 1, k);
      DownTakes(c, LockAt(c, n), Downs(c, n + 1, k));
    }
  }

  lemma DownTakes(c: Chain, l: Lock, rest: seq<Step>)
    ensures Taken([Down(c, l)] + rest) == {l} + Taken(rest)
  {
    TakenSum([Down(c, l)], rest);
    assert Down(c, l) in [Down(c, l)];
  }

  lemma TurnTakes(c: Chain, rest: seq<Step>)
    ensures Taken([Turn(c)] + rest) == Taken(rest)
  {
    TakenSum([Turn(c)], rest);
  }

  // ---------------------------------------------------------------- handler by handler

  lemma SelectTakes(p: Path)
    ensures TakenIn(SelectRounds(p.found, p.worker)) == ToSelect(p)
  {
    TouchTakes(Room, RoomRouters);
    TouchTakes(Load, Routers2Workers);
    NestTakes(Load, Routers2Workers, Loads);
    OneRound(Touch(Load, Routers2Workers));
    OneRound(Nest(Load, Routers2Workers, Loads));
    var more := if !p.found then [] else if !p.worker then [Touch(Load, Routers2Workers)]
                else [Nest(Load, Routers2Workers, Loads)];
    FirstRound(Touch(Room, RoomRouters), more);
  }

  lemma {:induction false} WorkersTake(n: nat)
    ensures Taken(WorkerLoop(n)) == Only(n > 0, {Routers, Routers2Workers})
  {
    if n > 0 {
      WorkersTake(n - 1);
      NestTakes(Group, Routers, Routers2Workers);
      TakenSum(Nest(Group, Routers, Routers2Workers), WorkerLoop(n - 1));
    }
  }

  lemma GroupTakes(p: Path)
    ensures Taken(GroupProgram(p.found, p.count)) == Needs(CreateGroup, p)
  {
    if p.found {
      TouchTakes(Group, RoomRouters);
    } else {
      WorkersTake(p.count);
      UpsTake(2);
      TakenSum(WorkerLoop(p.count), Ups(2));
      DownTakes(Group, Workers, WorkerLoop(p.count) + Ups(2));
      DownTakes(Group, RoomRouters, [Down(Group, Workers)] + (WorkerLoop(p.count) + Ups(2)));
    }
  }

  lemma {:induction false} OffersTake(present: seq<bool>)
    ensures TakenIn(OfferRounds(present)) + {Routers} == Only(present != [], {Relays}) + {Routers}
  {
    if present != [] {
      OffersTake(present[1..]);
      TouchTakes(Offer, Relays);
      NestTakes(Offer, Relays, Routers);
      FirstRound(if present[0] then Touch(Offer, Relays) else Nest(Offer, Relays, Routers), OfferRounds(present[1..]));
    }
  }

  lemma IngressTakes(present: seq<bool>)
    ensures TakenIn(IngressRounds(present)) ==
      {Routers, WebrtcServers, Transport2Router, Endpoints} + Only(present != [], {Relays})
  {
    OffersTake(present);
    TouchTakes(Router, Routers);
    TouchTakes(Web, WebrtcServers);
    TouchTakes(Transport, Transport2Router);
    TouchTakes(Endpoint, Endpoints);
    OneRound(Touch(Endpoint, Endpoints));
    var last := OfferRounds(present) + [Touch(Endpoint, Endpoints)];
    TakenInSum(OfferRounds(present), [Touch(Endpoint, Endpoints)]);
    FirstRound(Touch(Transport, Transport2Router), last);
    FirstRound(Touch(Web, WebrtcServers), [Touch(Transport, Transport2Router)] + last);
    FirstRound(Touch(Router, Routers), [Touch(Web, WebrtcServers)] + ([Touch(Transport, Transport2Router)] + last));
  }

  lemma EgressTakes(reach: nat)
    ensures Taken(EgressRound(reach)) ==
      {Routers} + Only(reach >= 1, {WebrtcServers}) + Only(reach >= 2, {Transport2Router, Endpoints})
  {
    TouchTakes(EgressWeb, Routers);
    NestTakes(EgressWeb, Routers, WebrtcServers);
    TouchTakes(EgressWeb, WebrtcServers);
    DownsTake(EgressTransport, 1, 3);
    assert LocksAt(EgressTransport, 2, 3) == {Endpoints};
    UpsTake(3);
    var inner := Downs(EgressTransport, 1, 3) + Ups(3);
    TakenSum(Downs(EgressTransport, 1, 3), Ups(3));
    TurnTakes(EgressTransport, inner);
    TakenSum(Touch(EgressWeb, WebrtcServers), [Turn(EgressTransport)] + inner);
    DownTakes(EgressWeb, Routers, EgressHeld());
  }

  lemma DestroyTakes()
    ensures Taken(DestroyProgram()) ==
      {RoomRouters, PendingRelays, Relays, RelayRouters, Routers2Workers, Loads, Routers}
  {
    DownsTake(Destroy, 0, 7);
    DestroyLocks();
    UpsTake(7);
    TakenSum(Downs(Destroy, 0, 7), Ups(7));
  }

  lemma DestroyLocks()
    ensures LocksAt(Destroy, 0, 7) ==
      {RoomRouters, PendingRelays, Relays, RelayRouters, Routers2Workers, Loads, Routers}
  {
    assert LocksAt(Destroy, 6, 7) == {Routers};
    assert LocksAt(Destroy, 4, 7) == {Routers2Workers, Loads, Routers};
    assert LocksAt(Destroy, 2, 7) == {Relays, RelayRouters} + LocksAt(Destroy, 4, 7);
  }

  lemma LastTakes(l: Lock, rest: seq<Step>)
    ensures Taken(Last(l) + rest) == {l} + Taken(rest)
  {
    assert Down(Leave(l), l) in Last(l);
    TakenSum(Last(l), rest);
  }

  lemma TailTakes(reach: nat)
    ensures Taken(LeaveTail(reach)) ==
      Only(reach >= 1, {Transport2Router}) + Only(reach >= 2, {Routers2Workers}) + Only(reach >= 3, {Loads})
  {
    UpsTake(10);
    var loads := Last(Loads) + Ups(10);
    LastTakes(Loads, Ups(10));
    TurnTakes(Leave(Loads), loads);
    LastTakes(Routers2Workers, [Turn(Leave(Loads))] + loads);
    LastTakes(Routers2Workers, Ups(10));
    LastTakes(Transport2Router, Ups(10));
    var two := Last(Routers2Workers) + Ups(10);
    TurnTakes(Leave(Routers2Workers), two);
    LastTakes(Transport2Router, [Turn(Leave(Routers2Workers))] + two);
    var three := Last(Routers2Workers) + ([Turn(Leave(Loads))] + loads);
    TurnTakes(Leave(Routers2Workers), three);
    LastTakes(Transport2Router, [Turn(Leave(Routers2Workers))] + three);
  }

  lemma LeaveTakes(reach: nat)
    ensures Taken(LeaveProgram(reach)) == BOOKS + Taken(LeaveTail(reach))
  {
    BooksThen(LeaveTail(reach));
  }

  lemma BooksThen(tail: seq<Step>)
    ensures Taken(Downs(Leave(Transport2Router), 0, 10) + tail) == BOOKS + Taken(tail)
  {
    BooksTake();
    TakenSum(Downs(Leave(Transport2Router), 0, 10), tail);
  }

  lemma BooksTake()
    ensures Taken(Downs(Leave(Transport2Router), 0, 10)) == BOOKS
  {
    DownsTake(Leave(Transport2Router), 0, 10);
    BooksAt(Leave(Transport2Router));
  }

  lemma BooksAt(c: Chain)
    requires c.Leave?
    ensures LocksAt(c, 0, 10) == BOOKS
  {
    assert LocksAt(c, 8, 10) == {MovementConsumed, EventConsumed} by {
      assert LocksAt(c, 9, 10) == {EventConsumed};
    }
    assert LocksAt(c, 6, 10) == {VideoConsumed, AudioConsumed} + LocksAt(c, 8, 10);
    assert LocksAt(c, 4, 10) == {DataProducers, VideoProducers} + LocksAt(c, 6, 10);
    assert LocksAt(c, 2, 10) == {AudioProducers, DataConsumers} + LocksAt(c, 4, 10);
  }

  lemma AnswerTakes(p: Path)
    ensures TakenIn(AnswerRounds(p)) == ToAnswer(p)
  {
    TouchTakes(Relay, Relays);
    SelectTakes(p);
    RecordTakes(p.named);
    var more := if p.found then RecordRounds(p.named) else [];
    TakenInSum(SelectRounds(p.found, p.worker), more);
    FirstRound(Touch(Relay, Relays), if p.kept then [] else SelectRounds(p.found, p.worker) + more);
  }

  lemma RecordTakes(named: bool)
    ensures TakenIn(RecordRounds(named)) == {Routers, RelayRouters} + Only(named, {Relays, PendingRelays})
  {
    TouchTakes(Router, Routers);
    TouchTakes(Answer, RelayRouters);
    UpsTake(3);
    DownTakes(Answer, PendingRelays, Ups(3));
    DownTakes(Answer, Relays, [Down(Answer, PendingRelays)] + Ups(3));
    DownTakes(Answer, RelayRouters, [Down(Answer, Relays)] + ([Down(Answer, PendingRelays)] + Ups(3)));
    var last := if named then AnswerRound() else Touch(Answer, RelayRouters);
    OneRound(last);
    FirstRound(Touch(Router, Routers), [last]);
  }

  lemma {:induction false} TimesTake(n: nat, round: seq<Step>)
    ensures TakenIn(Times(n, round)) == Only(n > 0, Taken(round))
  {
    if n > 0 {
      TimesTake(n - 1, round);
      FirstRound(round, Times(n - 1, round));
    }
  }

  lemma ProducerTakes(p: Path)
    ensures TakenIn(ProducerRounds(p.kind, p.count)) == ToRelay(p)
  {
    if p.kind != NoKind {
      TouchTakes(Relay, Relays);
      TouchTakes(Room, RoomRouters);
      TouchTakes(RelayRouter, RelayRouters);
      TouchTakes(Router, Routers);
      TimesTake(p.count, Touch(Router, Routers));
      NestTakes(Audio, AudioProducers, Producers);
      NestTakes(Video, VideoProducers, Producers);
      TouchTakes(Data, DataProducers);
      OneRound(ListRound(p.kind));
      var last := Times(p.count, Touch(Router, Routers)) + [ListRound(p.kind)];
      TakenInSum(Times(p.count, Touch(Router, Routers)), [ListRound(p.kind)]);
      FirstRound(Touch(RelayRouter, RelayRouters), last);
      FirstRound(Touch(Room, RoomRouters), [Touch(RelayRouter, RelayRouters)] + last);
      FirstRound(Touch(Relay, Relays), [Touch(Room, RoomRouters)] + ([Touch(RelayRouter, RelayRouters)] + last));
    }
  }

  lemma LookTakes(c: Chain, consumed: Lock, look: Look)
    ensures TakenIn(OneLook(c, consumed, look)) ==
      {consumed} + Only(look != AlreadyConsumed, {Transport2Router, Routers}) + Only(look == Consumable, {Consumers})
  {
    TouchTakes(c, consumed);
    TouchTakes(Transport, Transport2Router);
    TouchTakes(Router, Routers);
    NestTakes(c, consumed, Consumers);
    OneRound(Touch(c, consumed));
    OneRound(Touch(Router, Routers));
    OneRound(Nest(c, consumed, Consumers));
    FirstRound(Touch(Transport, Transport2Router), [Touch(Router, Routers)]);
    TakenInSum(WayRounds(), [Nest(c, consumed, Consumers)]);
    FirstRound(Touch(c, consumed), WayRounds());
    FirstRound(Touch(c, consumed), WayRounds() + [Nest(c, consumed, Consumers)]);
  }

  lemma LooksOf(looks: seq<Look>)
    ensures forall x :: x in Looks([looks]) <==> x in looks
  {
    assert looks in [looks];
  }

  lemma {:induction false} LooksTake(c: Chain, consumed: Lock, looks: seq<Look>)
    ensures TakenIn(LookRounds(c, consumed, looks)) == LookNeeds(Looks([looks]), consumed)
  {
    if looks != [] {
      LooksTake(c, consumed, looks[1..]);
      LookTakes(c, consumed, looks[0]);
      TakenInSum(OneLook(c, consumed, looks[0]), LookRounds(c, consumed, looks[1..]));
      assert Looks([looks]) == {looks[0]} + Looks([looks[1..]]) by {
        LooksOf(looks);
        LooksOf(looks[1..]);
      }
    }
  }

  lemma MoreLooks(lists: seq<seq<Look>>)
    requires lists != []
    ensures Looks(lists) == Looks([lists[0]]) + Looks(lists[1..])
  {
    assert lists == [lists[0]] + lists[1..];
    assert forall looks :: looks in lists <==> looks in [lists[0]] || looks in lists[1..];
  }

  lemma MoreNeeds(a: set<Look>, b: set<Look>, consumed: Lock)
    ensures LookNeeds(a + b, consumed) == LookNeeds(a, consumed) + LookNeeds(b, consumed)
  {
  }

  lemma {:induction false} ConsumeTakes(listed: Chain, producers: Lock, c: Chain, consumed: Lock, lists: seq<seq<Look>>)
    ensures TakenIn(ConsumeRounds(listed, producers, c, consumed, lists)) == ToConsume(lists, producers, consumed)
  {
    if lists != [] {
      var rest := ConsumeRounds(listed, producers, c, consumed, lists[1..]);
      ConsumeTakes(listed, producers, c, consumed, lists[1..]);
      LooksTake(c, consumed, lists[0]);
      TouchTakes(listed, producers);
      TakenInSum(LookRounds(c, consumed, lists[0]), rest);
      FirstRound(Touch(listed, producers), LookRounds(c, consumed, lists[0]) + rest);
      MoreLooks(lists);
      MoreNeeds(Looks([lists[0]]), Looks(lists[1..]), consumed);
    }
  }

  lemma OutTouchTakes(audio: bool, l: Lock, rest: seq<Step>)
    ensures Taken(OutTouch(audio, l) + rest) == {l} + Taken(rest)
  {
    assert Down(OutChain(audio, l), l) in OutTouch(audio, l);
    TakenSum(OutTouch(audio, l), rest);
  }

  lemma OutTurnTakes(audio: bool, l: Lock, rest: seq<Step>)
    ensures Taken(OutTurn(audio, l, rest)) == {l} + Taken(rest)
  {
    OutTouchTakes(audio, l, rest);
    TurnTakes(OutChain(audio, l), OutTouch(audio, l) + rest);
  }

  lemma OutTakes(kind: Kind, reach: nat)
    requires kind == AudioKind || kind == VideoKind
    ensures Taken(OutProgram(kind == AudioKind, reach)) == ToProduce(kind, reach)
  {
    var audio := kind == AudioKind;
    OutHeadTakes(audio);
    OutTailTakes(audio, reach);
    TakenSum(Downs(OutChain(audio, Transport2Router), 0, OutDepth(audio)), OutTail(audio, reach));
  }

  lemma OutHeadTakes(audio: bool)
    ensures Taken(Downs(OutChain(audio, Transport2Router), 0, OutDepth(audio))) ==
      if audio then {AudioProducers, Producers} else {VideoProducers}
  {
    var c := OutChain(audio, Transport2Router);
    DownsTake(c, 0, OutDepth(audio));
    assert LocksAt(c, 1, OutDepth(audio)) == if audio then {Producers} else {};
  }

  lemma OutEndTakes(audio: bool)
    ensures Taken(OutEnd(audio)) == {Consumers} + Only(!audio, {Producers})
  {
    UpsTake(2);
    UpsTake(1);
    OutTurnTakes(false, Producers, Ups(1));
    OutTurnTakes(audio, Consumers, if audio then Ups(2) else OutTurn(false, Producers, Ups(1)));
  }

  lemma OutTailTakes(audio: bool, reach: nat)
    ensures Taken(OutTail(audio, reach)) ==
      Only(reach >= 1, {Transport2Router}) + Only(reach >= 2, {Relays})
      + Only(reach >= 3, {Consumers} + Only(!audio, {Producers}))
  {
    UpsTake(OutDepth(audio));
    OutEndTakes(audio);
    var more := if reach == 2 then Ups(OutDepth(audio)) else OutEnd(audio);
    OutTurnTakes(audio, Relays, more);
    OutTouchTakes(audio, Transport2Router, if reach == 1 then Ups(OutDepth(audio)) else OutTurn(audio, Relays, more));
  }

  lemma DataOutLocks(c: Chain, consumed: Lock)
    requires (c == MovementOut && consumed == MovementConsumed) || (c == EventOut && consumed == EventConsumed)
    ensures Taken(Downs(c, 0, 3) + Ups(3)) == {consumed, DataProducers, DataConsumers}
  {
    DownsTake(c, 0, 3);
    UpsTake(3);
    assert LocksAt(c, 2, 3) == {DataConsumers};
    assert LocksAt(c, 1, 3) == {DataProducers, DataConsumers};
    TakenSum(Downs(c, 0, 3), Ups(3));
  }

  lemma WayTakes(last: seq<Step>)
    ensures TakenIn([Touch(Transport, Transport2Router)] + ([Touch(Relay, Relays)]
                    + ([Touch(Endpoint, Endpoints)] + [last]))) ==
      {Transport2Router, Relays, Endpoints} + Taken(last)
  {
    TouchTakes(Transport, Transport2Router);
    TouchTakes(Relay, Relays);
    TouchTakes(Endpoint, Endpoints);
    OneRound(last);
    var rounds := [Touch(Endpoint, Endpoints)] + [last];
    FirstRound(Touch(Endpoint, Endpoints), [last]);
    FirstRound(Touch(Relay, Relays), rounds);
    FirstRound(Touch(Transport, Transport2Router), [Touch(Relay, Relays)] + rounds);
  }

  lemma DataOutTakes(c: Chain, consumed: Lock)
    requires (c == MovementOut && consumed == MovementConsumed) || (c == EventOut && consumed == EventConsumed)
    ensures TakenIn(DataOutRounds(c)) ==
      {Transport2Router, Relays, Endpoints} + {consumed, DataProducers, DataConsumers}
  {
    DataOutLocks(c, consumed);
    WayTakes(Downs(c, 0, 3) + Ups(3));
  }

  // ---------------------------------------------------------------- all handlers

  lemma SetupTakes(h: Handler, p: Path)
    requires h.SelectRouter? || h.CreateGroup? || h.CreateIngress? || h.CreateEgress? || h.DestroyGroup?
    ensures TakenIn(Rounds(h, p)) == Needs(h, p)
  {
    SelectTakes(p);
    match h
    case SelectRouter =>
    case CreateGroup =>
      GroupTakes(p);
      OneRound(GroupProgram(p.found, p.count));
    case CreateIngress =>
      IngressTakes(p.present);
      TakenInSum(SelectRounds(p.found, p.worker), if p.found then IngressRounds(p.present) else []);
    case CreateEgress =>
      EgressTakes(p.reach);
      OneRound(EgressRound(p.reach));
      TakenInSum(SelectRounds(p.found, p.worker), if p.found then [EgressRound(p.reach)] else []);
    case DestroyGroup =>
      DestroyTakes();
      TouchTakes(Destroy, RoomRouters);
      OneRound(if p.found then DestroyProgram() else Touch(Destroy, RoomRouters));
  }

  lemma BookTakes(h: Handler, p: Path)
    requires h.RelayProducer? || h.Disconnect? || h.AudioRequest? || h.VideoRequest? || h.MovementRequest?
             || h.EventRequest?
    ensures TakenIn(Rounds(h, p)) == Needs(h, p)
  {
    match h
    case RelayProducer =>
      AnswerTakes(p);
      ProducerTakes(p);
      TakenInSum(AnswerRounds(p), if p.kept || (p.found && p.named) then ProducerRounds(p.kind, p.count) else []);
    case Disconnect =>
      LeaveTakes(p.reach);
      TailTakes(p.reach);
      OneRound(LeaveProgram(p.reach));
    case AudioRequest => ConsumeTakes(Audio, AudioProducers, ConsumeAudio, AudioConsumed, p.lists);
    case VideoRequest => ConsumeTakes(Video, VideoProducers, ConsumeVideo, VideoConsumed, p.lists);
    case MovementRequest =>
      NestTakes(ConsumeMovement, MovementConsumed, DataConsumers);
      TimesTake(p.count, Nest(ConsumeMovement, MovementConsumed, DataConsumers));
    case EventRequest =>
      NestTakes(ConsumeEvent, EventConsumed, DataConsumers);
      TimesTake(p.count, Nest(ConsumeEvent, EventConsumed, DataConsumers));
  }

  lemma MediaOutTakes(kind: Kind, reach: nat)
    ensures TakenIn(MediaOutRounds(kind, reach)) == ToProduce(kind, reach)
  {
    if kind == AudioKind || kind == VideoKind {
      OutTakes(kind, reach);
      OneRound(OutProgram(kind == AudioKind, reach));
    }
  }

  lemma OutboundTakes(h: Handler, p: Path)
    requires h.ProduceMedia? || h.ProduceMovement? || h.ProduceEvents?
    ensures TakenIn(Rounds(h, p)) == Needs(h, p)
  {
    match h
    case ProduceMedia => MediaOutTakes(p.kind, p.reach);
    case ProduceMovement => DataOutTakes(MovementOut, MovementConsumed);
    case ProduceEvents => DataOutTakes(EventOut, EventConsumed);
  }

  lemma ShortTakes(h: Handler, p: Path)
    requires h.StoreOffer? || h.ConnectPipe? || h.TransportClosed? || h.RouterClosed? || h.ProducerEnded?
             || h.PauseConsumer? || h.PauseProducer? || h.CloseProducer?
    ensures TakenIn(Rounds(h, p)) == Needs(h, p)
  {
    OneRound(Rounds(h, p)[0]);
    match h
    case StoreOffer => TouchTakes(Pending, PendingRelays);
    case ConnectPipe => TouchTakes(Relay, Relays);
    case RouterClosed => TouchTakes(Relay, Relays);
    case TransportClosed => NestTakes(Closing, Transport2Router, Endpoints);
    case ProducerEnded => NestTakes(Ended, Producers, Consumers);
    case PauseConsumer => TouchTakes(ConsumerOnly, Consumers);
    case PauseProducer => TouchTakes(AudioOnly, AudioProducers);
    case CloseProducer => TouchTakes(VideoOnly, VideoProducers);
  }

  lemma AllTake(h: Handler, p: Path)
    ensures TakenIn(Rounds(h, p)) == Needs(h, p)
  {
    if h.SelectRouter? || h.CreateGroup? || h.CreateIngress? || h.CreateEgress? || h.DestroyGroup? {
      SetupTakes(h, p);
    } else if h.RelayProducer? || h.Disconnect? || h.AudioRequest? || h.VideoRequest? || h.MovementRequest?
      || h.EventRequest? {
      BookTakes(h, p);
    } else if h.ProduceMedia? || h.ProduceMovement? || h.ProduceEvents? {
      OutboundTakes(h, p);
    } else {
      ShortTakes(h, p);
    }
  }

  lemma FirstRounds(rounds: seq<seq<Step>>, k: nat)
    requires k <= |rounds|
    ensures Taken(Flat(rounds[..k])) <= TakenIn(rounds)
    ensures k == |rounds| ==> Taken(Flat(rounds[..k])) == TakenIn(rounds)
  {
    TakenFlat(rounds[..k]);
    TakenInSum(rounds[..k], rounds[k..]);
    assert rounds[..k] + rounds[k..] == rounds;
  }

  /** On every path each handler takes exactly the locks that it needs, and no more of them where it
      stops early. */
  lemma TakesWhatItNeeds(h: Handler, p: Path)
    ensures Taken(Program(h, p)) <= Needs(h, p)
    ensures p.stop >= |Rounds(h, p)| ==> Taken(Program(h, p)) == Needs(h, p)
  {
    AllTake(h, p);
    FirstRounds(Rounds(h, p), if p.stop < |Rounds(h, p)| then p.stop else |Rounds(h, p)|);
  }
}

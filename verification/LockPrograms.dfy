/** What the handlers of a media server do with its locks, step by step on every way through their
    code, and that they keep to their sections. */
module LockPrograms {
  import opened Locks

  // ---------------------------------------------------------------- pieces of programs

  function Touch(c: Chain, l: Lock): seq<Step> {
    [Down(c, l), Up]
  }

  function Nest(c: Chain, l: Lock, k: Lock): seq<Step> {
    [Down(c, l), Down(c, k), Up, Up]
  }

  function At(c: Chain, n: nat): Position {
    if n == 0 then Outside else Within(c, n)
  }

  function Downs(c: Chain, n: nat, k: nat): seq<Step>
    requires n <= k
    decreases k - n
  {
    if n == k then [] else [Down(c, LockAt(c, n))] + Downs(c, n + 1, k)
  }

  function Ups(n: nat): seq<Step> {
    if n == 0 then [] else [Up] + Ups(n - 1)
  }

  // ---------------------------------------------------------------- the handlers' programs

  /** What a consume request finds for one producer. */
  datatype Look = AlreadyConsumed | Unable | Consumable

  /** What is to be relayed; a request may ask for neither media nor data. */
  datatype Kind = AudioKind | VideoKind | DataKind | NoKind

  /** A way through a handler: what it finds, how often it goes round its loops, and how many rounds
      it gets through before it fails, if it does. */
  datatype Path = Path(found: bool, worker: bool, kept: bool, named: bool, kind: Kind, count: nat, reach: nat,
                       present: seq<bool>, lists: seq<seq<Look>>, stop: nat)

  /** `get_less_loaded_router`. */
  function SelectRounds(found: bool, worker: bool): seq<seq<Step>> {
    [Touch(Room, RoomRouters)]
    + (if !found then [] else if !worker then [Touch(Load, Routers2Workers)] else [Nest(Load, Routers2Workers, Loads)])
  }

  /** The loop of `create_router_group` over the workers. */
  function WorkerLoop(n: nat): seq<Step> {
    if n == 0 then [] else Nest(Group, Routers, Routers2Workers) + WorkerLoop(n - 1)
  }

  function GroupProgram(occupied: bool, n: nat): seq<Step> {
    if occupied then Touch(Group, RoomRouters)
    else [Down(Group, RoomRouters)] + ([Down(Group, Workers)] + (WorkerLoop(n) + Ups(2)))
  }

  /** The loop of `create_ingress_relay`: for each egress server, whether it has a pipe already. */
  function OfferRounds(present: seq<bool>): seq<seq<Step>> {
    if present == [] then []
    else [if present[0] then Touch(Offer, Relays) else Nest(Offer, Relays, Routers)] + OfferRounds(present[1..])
  }

  /** `create_webrtc_ingress` once it has a router. */
  function IngressRounds(present: seq<bool>): seq<seq<Step>> {
    [Touch(Router, Routers)] + ([Touch(Web, WebrtcServers)] + ([Touch(Transport, Transport2Router)]
    + (OfferRounds(present) + [Touch(Endpoint, Endpoints)])))
  }

  /** What `create_webrtc_egress` does while it holds the lock on the routers. */
  function EgressHeld(): seq<Step> {
    Touch(EgressWeb, WebrtcServers) + ([Turn(EgressTransport)] + (Downs(EgressTransport, 1, 3) + Ups(3)))
  }

  /** It holds that lock from its first look to its end, wherever that is. */
  function EgressRound(reach: nat): seq<Step> {
    if reach == 0 then Touch(EgressWeb, Routers)
    else if reach == 1 then Nest(EgressWeb, Routers, WebrtcServers)
    else [Down(EgressWeb, Routers)] + EgressHeld()
  }

  /** `destroyRouterGroup` takes everything and then gives everything back. */
  function DestroyProgram(): seq<Step> {
    Downs(Destroy, 0, 7) + Ups(7)
  }

  function DestroyRounds(found: bool): seq<seq<Step>> {
    [if found then DestroyProgram() else Touch(Destroy, RoomRouters)]
  }

  /** The last lock of a `Leave` section, given back at once. */
  function Last(l: Lock): seq<Step> {
    [Down(Leave(l), l), Up]
  }

  /** Below all the books up to three more locks are taken, one after the other: for a peer that has a
      transport, whose transport has a router, whose router has a worker. */
  function LeaveTail(reach: nat): seq<Step> {
    if reach == 0 then Ups(10)
    else if reach == 1 then Last(Transport2Router) + Ups(10)
    else if reach == 2 then
      Last(Transport2Router) + ([Turn(Leave(Routers2Workers))] + (Last(Routers2Workers) + Ups(10)))
    else Last(Transport2Router) + ([Turn(Leave(Routers2Workers))]
         + (Last(Routers2Workers) + ([Turn(Leave(Loads))] + (Last(Loads) + Ups(10)))))
  }

  /** `disconnectTransport`. */
  function LeaveProgram(reach: nat): seq<Step> {
    Downs(Leave(Transport2Router), 0, 10) + LeaveTail(reach)
  }

  function AnswerRound(): seq<Step> {
    [Down(Answer, RelayRouters)] + ([Down(Answer, Relays)] + ([Down(Answer, PendingRelays)] + Ups(3)))
  }

  /** `create_egress_relay`; it keeps a relay that is there, and gives up if the server has no name. */
  function AnswerRounds(p: Path): seq<seq<Step>> {
    [Touch(Relay, Relays)]
    + (if p.kept then [] else SelectRounds(p.found, p.worker) + (if p.found then RecordRounds(p.named) else []))
  }

  function RecordRounds(named: bool): seq<seq<Step>> {
    [Touch(Router, Routers)] + [if named then AnswerRound() else Touch(Answer, RelayRouters)]
  }

  function Times(n: nat, round: seq<Step>): seq<seq<Step>> {
    if n == 0 then [] else [round] + Times(n - 1, round)
  }

  /** `create_relay_producer` and `create_relay_datachannel_producer`, with any number of looks at the
      routers in between. */
  function ProducerRounds(kind: Kind, n: nat): seq<seq<Step>> {
    if kind == NoKind then []
    else
      [Touch(Relay, Relays)] + ([Touch(Room, RoomRouters)] + ([Touch(RelayRouter, RelayRouters)]
      + (Times(n, Touch(Router, Routers)) + [ListRound(kind)])))
  }

  /** The producer is entered in the books. */
  function ListRound(kind: Kind): seq<Step> {
    match kind
    case AudioKind => Nest(Audio, AudioProducers, Producers)
    case VideoKind => Nest(Video, VideoProducers, Producers)
    case _ => Touch(Data, DataProducers)
  }

  function LookRounds(c: Chain, consumed: Lock, looks: seq<Look>): seq<seq<Step>> {
    if looks == [] then []
    else OneLook(c, consumed, looks[0]) + LookRounds(c, consumed, looks[1..])
  }

  function OneLook(c: Chain, consumed: Lock, look: Look): seq<seq<Step>> {
    var first := [Touch(c, consumed)];
    match look
    case AlreadyConsumed => first
    case Unable => first + WayRounds()
    case Consumable => first + (WayRounds() + [Nest(c, consumed, Consumers)])
  }

  /** From the consumer's transport to its router. */
  function WayRounds(): seq<seq<Step>> {
    [Touch(Transport, Transport2Router)] + [Touch(Router, Routers)]
  }

  /** The loops of `consume_audio` and `consume_video`: for each peer asked for, its producers. */
  function ConsumeRounds(listed: Chain, producers: Lock, c: Chain, consumed: Lock,
      lists: seq<seq<Look>>): seq<seq<Step>>
  {
    if lists == [] then []
    else
      [Touch(listed, producers)]
      + (LookRounds(c, consumed, lists[0]) + ConsumeRounds(listed, producers, c, consumed, lists[1..]))
  }

  /** What `create_media_producer` has open while it relays the producer: for audio the list and the
      producers, for video the list. */
  function OutChain(audio: bool, last: Lock): Chain {
    if audio then AudioOut(last) else VideoOut(last)
  }

  function OutDepth(audio: bool): nat {
    if audio then 2 else 1
  }

  /** One more lock below that, given back at once. */
  function OutTouch(audio: bool, last: Lock): seq<Step> {
    [Down(OutChain(audio, last), last), Up]
  }

  /** `create_consumer_relay` under these locks looks for the router, the relay and then enters a consumer;
      a video producer is entered among the producers at the end. */
  function OutTail(audio: bool, reach: nat): seq<Step> {
    if reach == 0 then Ups(OutDepth(audio))
    else OutTouch(audio, Transport2Router)
         + (if reach == 1 then Ups(OutDepth(audio))
            else OutTurn(audio, Relays, if reach == 2 then Ups(OutDepth(audio)) else OutEnd(audio)))
  }

  function OutTurn(audio: bool, last: Lock, rest: seq<Step>): seq<Step> {
    [Turn(OutChain(audio, last))] + (OutTouch(audio, last) + rest)
  }

  function OutEnd(audio: bool): seq<Step> {
    OutTurn(audio, Consumers, if audio then Ups(2) else OutTurn(false, Producers, Ups(1)))
  }

  function OutProgram(audio: bool, reach: nat): seq<Step> {
    Downs(OutChain(audio, Transport2Router), 0, OutDepth(audio)) + OutTail(audio, reach)
  }

  function MediaOutRounds(kind: Kind, reach: nat): seq<seq<Step>> {
    if kind == AudioKind || kind == VideoKind then [OutProgram(kind == AudioKind, reach)] else []
  }

  /** The producers of movement and of events, with what they look for first. */
  function DataOutRounds(c: Chain): seq<seq<Step>> {
    [Touch(Transport, Transport2Router)] + ([Touch(Relay, Relays)] + ([Touch(Endpoint, Endpoints)]
    + [Downs(c, 0, 3) + Ups(3)]))
  }

  /** What a handler does between one moment at which it holds no lock and the next, on path `p`. */
  function Rounds(h: Handler, p: Path): seq<seq<Step>> {
    match h
    case SelectRouter => SelectRounds(p.found, p.worker)
    case CreateGroup => [GroupProgram(p.found, p.count)]
    case CreateIngress =>
      SelectRounds(p.found, p.worker)
      + (if p.found then IngressRounds(p.present) else [])
    case CreateEgress => SelectRounds(p.found, p.worker) + (if p.found then [EgressRound(p.reach)] else [])
    case DestroyGroup => DestroyRounds(p.found)
    case RelayProducer =>
      AnswerRounds(p) + (if p.kept || (p.found && p.named) then ProducerRounds(p.kind, p.count) else [])
    case Disconnect => [LeaveProgram(p.reach)]
    case AudioRequest => ConsumeRounds(Audio, AudioProducers, ConsumeAudio, AudioConsumed, p.lists)
    case VideoRequest => ConsumeRounds(Video, VideoProducers, ConsumeVideo, VideoConsumed, p.lists)
    case MovementRequest => Times(p.count, Nest(ConsumeMovement, MovementConsumed, DataConsumers))
    case EventRequest => Times(p.count, Nest(ConsumeEvent, EventConsumed, DataConsumers))
    case StoreOffer => [Touch(Pending, PendingRelays)]
    case ConnectPipe => [Touch(Relay, Relays)]
    case TransportClosed => [Nest(Closing, Transport2Router, Endpoints)]
    case RouterClosed => [Touch(Relay, Relays)]
    case ProduceMedia => MediaOutRounds(p.kind, p.reach)
    case ProduceMovement => DataOutRounds(MovementOut)
    case ProduceEvents => DataOutRounds(EventOut)
    case ProducerEnded => [Nest(Ended, Producers, Consumers)]
    case PauseConsumer => [Touch(ConsumerOnly, Consumers)]
    case PauseProducer => [Touch(AudioOnly, AudioProducers)]
    case CloseProducer => [Touch(VideoOnly, VideoProducers)]
  }

  function Flat(rs: seq<seq<Step>>): seq<Step> {
    if rs == [] then [] else rs[0] + Flat(rs[1..])
  }

  function Program(h: Handler, p: Path): seq<Step> {
    var rounds := Rounds(h, p);
    Flat(rounds[..if p.stop < |rounds| then p.stop else |rounds|])
  }

  ghost predicate Written(h: Handler, program: seq<Step>) {
    exists p :: program == Program(h, p)
  }

  // ---------------------------------------------------------------- keeping to the sections

  /** The steps lead from `p` to `q` through sections of the handler. */
  ghost predicate Reaches(h: Handler, p: Position, a: seq<Step>, q: Position)
    decreases |a|
  {
    if a == [] then p == q
    else Follows(p, a[0]) && (!a[0].Up? ==> Uses(h, a[0].chain)) && Reaches(h, Moved(p, a[0]), a[1..], q)
  }

  lemma {:induction false} ReachesThen(h: Handler, p: Position, a: seq<Step>, q: Position, b: seq<Step>, r: Position)
    requires Reaches(h, p, a, q) && Reaches(h, q, b, r)
    ensures Reaches(h, p, a + b, r)
    decreases |a|
  {
    if a == [] {
      assert a + b == b;
    } else {
      ReachesThen(h, Moved(p, a[0]), a[1..], q, b, r);
      assert (a + b)[0] == a[0] && (a + b)[1..] == a[1..] + b;
    }
  }

  lemma {:induction false} ReachesProper(h: Handler, p: Position, a: seq<Step>)
    requires Reaches(h, p, a, Outside)
    ensures Proper(h, p, a)
    decreases |a|
  {
    if a != [] {
      ReachesProper(h, Moved(p, a[0]), a[1..]);
    }
  }

  lemma OneStep(h: Handler, p: Position, s: Step, rest: seq<Step>, q: Position)
    requires Follows(p, s) && (!s.Up? ==> Uses(h, s.chain)) && Reaches(h, Moved(p, s), rest, q)
    ensures Reaches(h, p, [s] + rest, q)
  {
    assert ([s] + rest)[1..] == rest;
  }

  lemma TouchReaches(h: Handler, c: Chain, l: Lock)
    requires Uses(h, c) && Place(c, l) == 0
    ensures Reaches(h, Outside, Touch(c, l), Outside)
  {
    OneStep(h, Within(c, 1), Up, [], Outside);
    OneStep(h, Outside, Down(c, l), [Up], Outside);
    assert [Up] + [] == [Up] && [Down(c, l)] + [Up] == Touch(c, l);
  }

  lemma DownStep(c: Chain, n: nat, l: Lock)
    requires Place(c, l) == n < 99
    ensures Follows(At(c, n), Down(c, l)) && Moved(At(c, n), Down(c, l)) == At(c, n + 1)
  {
  }

  lemma UpStep(h: Handler, c: Chain, n: nat, rest: seq<Step>, q: Position)
    requires Reaches(h, At(c, n), rest, q)
    ensures Reaches(h, At(c, n + 1), [Up] + rest, q)
  {
    OneStep(h, At(c, n + 1), Up, rest, q);
  }

  lemma NestReaches(h: Handler, n: nat, c: Chain, l: Lock, k: Lock)
    requires Uses(h, c) && Place(c, l) == n && Place(c, k) == n + 1 < 99
    ensures Reaches(h, At(c, n), Nest(c, l, k), At(c, n))
  {
    UpStep(h, c, n, [], At(c, n));
    UpStep(h, c, n + 1, [Up], At(c, n));
    DownStep(c, n + 1, k);
    OneStep(h, At(c, n + 1), Down(c, k), [Up] + [Up], At(c, n));
    DownStep(c, n, l);
    OneStep(h, At(c, n), Down(c, l), [Down(c, k)] + ([Up] + [Up]), At(c, n));
    assert [Up] + [] == [Up] && [Down(c, l)] + ([Down(c, k)] + ([Up] + [Up])) == Nest(c, l, k);
  }

  ghost predicate AllReach(h: Handler, rs: seq<seq<Step>>) {
    forall r :: r in rs ==> Reaches(h, Outside, r, Outside)
  }

  lemma BothReach(h: Handler, a: seq<seq<Step>>, b: seq<seq<Step>>)
    requires AllReach(h, a) && AllReach(h, b)
    ensures AllReach(h, a + b)
  {
    assert forall r :: r in a + b <==> r in a || r in b;
  }

  lemma TouchReach(h: Handler, c: Chain, l: Lock)
    requires Uses(h, c) && Place(c, l) == 0
    ensures AllReach(h, [Touch(c, l)])
  {
    TouchReaches(h, c, l);
  }

  lemma NestReach(h: Handler, c: Chain, l: Lock, k: Lock)
    requires Uses(h, c) && Place(c, l) == 0 && Place(c, k) == 1
    ensures AllReach(h, [Nest(c, l, k)])
  {
    NestReaches(h, 0, c, l, k);
  }

  lemma {:induction false} FlatReaches(h: Handler, rs: seq<seq<Step>>)
    requires AllReach(h, rs)
    ensures Reaches(h, Outside, Flat(rs), Outside)
  {
    if rs != [] {
      assert rs[0] in rs;
      FlatReaches(h, rs[1..]);
      ReachesThen(h, Outside, rs[0], Outside, Flat(rs[1..]), Outside);
    }
  }

  lemma SelectReach(h: Handler, found: bool, worker: bool)
    requires Uses(h, Room) && Uses(h, Load)
    ensures AllReach(h, SelectRounds(found, worker))
  {
    TouchReach(h, Room, RoomRouters);
    TouchReach(h, Load, Routers2Workers);
    NestReach(h, Load, Routers2Workers, Loads);
    var rest :=
      if !found then [] else if !worker then [Touch(Load, Routers2Workers)] else [Nest(Load, Routers2Workers, Loads)];
    BothReach(h, [Touch(Room, RoomRouters)], rest);
  }

  lemma {:induction false} WorkerLoopReaches(n: nat)
    ensures Reaches(CreateGroup, Within(Group, 2), WorkerLoop(n), Within(Group, 2))
  {
    if n > 0 {
      WorkerLoopReaches(n - 1);
      NestReaches(CreateGroup, 2, Group, Routers, Routers2Workers);
      ReachesThen(CreateGroup, Within(Group, 2), Nest(Group, Routers, Routers2Workers), Within(Group, 2),
                  WorkerLoop(n - 1), Within(Group, 2));
    }
  }

  lemma GroupOpens(n: nat)
    ensures Reaches(CreateGroup, Within(Group, 2), WorkerLoop(n) + Ups(2), Outside)
  {
    WorkerLoopReaches(n);
    UpsReach(CreateGroup, Group, 2);
    ReachesThen(CreateGroup, Within(Group, 2), WorkerLoop(n), Within(Group, 2), Ups(2), Outside);
  }

  lemma GroupGoesDown(rest: seq<Step>)
    requires Reaches(CreateGroup, Within(Group, 2), rest, Outside)
    ensures Reaches(CreateGroup, Outside, [Down(Group, RoomRouters)] + ([Down(Group, Workers)] + rest), Outside)
  {
    OneStep(CreateGroup, Within(Group, 1), Down(Group, Workers), rest, Outside);
    OneStep(CreateGroup, Outside, Down(Group, RoomRouters), [Down(Group, Workers)] + rest, Outside);
  }

  lemma GroupReaches(occupied: bool, n: nat)
    ensures Reaches(CreateGroup, Outside, GroupProgram(occupied, n), Outside)
  {
    if occupied {
      TouchReaches(CreateGroup, Group, RoomRouters);
    } else {
      GroupOpens(n);
      GroupGoesDown(WorkerLoop(n) + Ups(2));
    }
  }

  lemma {:induction false} OffersReach(present: seq<bool>)
    ensures AllReach(CreateIngress, OfferRounds(present))
  {
    if present != [] {
      OffersReach(present[1..]);
      TouchReach(CreateIngress, Offer, Relays);
      NestReach(CreateIngress, Offer, Relays, Routers);
      BothReach(CreateIngress, [if present[0] then Touch(Offer, Relays) else Nest(Offer, Relays, Routers)],
                OfferRounds(present[1..]));
    }
  }

  lemma IngressReach(present: seq<bool>)
    ensures AllReach(CreateIngress, IngressRounds(present))
  {
    var h := CreateIngress;
    OffersReach(present);
    TouchReach(h, Endpoint, Endpoints);
    var s1 := OfferRounds(present) + [Touch(Endpoint, Endpoints)];
    BothReach(h, OfferRounds(present), [Touch(Endpoint, Endpoints)]);
    TouchReach(h, Transport, Transport2Router);
    var s2 := [Touch(Transport, Transport2Router)] + s1;
    BothReach(h, [Touch(Transport, Transport2Router)], s1);
    TouchReach(h, Web, WebrtcServers);
    BothReach(h, [Touch(Web, WebrtcServers)], s2);
    TouchReach(h, Router, Routers);
    BothReach(h, [Touch(Router, Routers)], [Touch(Web, WebrtcServers)] + s2);
  }

  lemma {:induction false} DownsReach(h: Handler, c: Chain, n: nat, k: nat)
    requires n <= k < 99 && Uses(h, c) && forall j :: n <= j < k ==> Place(c, LockAt(c, j)) == j
    ensures Reaches(h, At(c, n), Downs(c, n, k), At(c, k))
    decreases k - n
  {
    if n < k {
      var l := LockAt(c, n);
      DownsReach(h, c, n + 1, k);
      DownStep(c, n, l);
      OneStep(h, At(c, n), Down(c, l), Downs(c, n + 1, k), At(c, k));
    }
  }

  lemma {:induction false} UpsReach(h: Handler, c: Chain, n: nat)
    ensures Reaches(h, At(c, n), Ups(n), Outside)
  {
    if n > 0 {
      UpsReach(h, c, n - 1);
      UpStep(h, c, n - 1, Ups(n - 1), Outside);
    }
  }

  lemma {:induction false} DownAt(c: Chain, n: nat, k: nat, j: nat)
    requires n <= j < k
    ensures |Downs(c, n, k)| == k - n && Downs(c, n, k)[j - n] == Down(c, LockAt(c, j))
    decreases k - n
  {
    if n < j {
      DownAt(c, n + 1, k, j);
    } else if n + 1 < k {
      DownAt(c, n + 1, k, n + 1);
    }
  }

  lemma EgressTransportReaches()
    ensures Reaches(CreateEgress, At(EgressTransport, 1), Downs(EgressTransport, 1, 3) + Ups(3), Outside)
  {
    DownsReach(CreateEgress, EgressTransport, 1, 3);
    UpsReach(CreateEgress, EgressTransport, 3);
    ReachesThen(CreateEgress, At(EgressTransport, 1), Downs(EgressTransport, 1, 3), At(EgressTransport, 3), Ups(3),
                Outside);
  }

  /** Both sections begin with the lock on the routers, so a task that holds it can turn to the other. */
  lemma EgressTurns(rest: seq<Step>)
    requires Reaches(CreateEgress, At(EgressTransport, 1), rest, Outside)
    ensures Reaches(CreateEgress, At(EgressWeb, 1), [Turn(EgressTransport)] + rest, Outside)
  {
    forall l ensures Place(EgressWeb, l) < 1 <==> Place(EgressTransport, l) < 1 {
    }
    OneStep(CreateEgress, At(EgressWeb, 1), Turn(EgressTransport), rest, Outside);
  }

  lemma EgressTouches()
    ensures Reaches(CreateEgress, At(EgressWeb, 1), Touch(EgressWeb, WebrtcServers), At(EgressWeb, 1))
  {
    UpStep(CreateEgress, EgressWeb, 1, [], At(EgressWeb, 1));
    DownStep(EgressWeb, 1, WebrtcServers);
    OneStep(CreateEgress, At(EgressWeb, 1), Down(EgressWeb, WebrtcServers), [Up] + [], At(EgressWeb, 1));
    assert [Up] + [] == [Up] && [Down(EgressWeb, WebrtcServers)] + [Up] == Touch(EgressWeb, WebrtcServers);
  }

  lemma EgressHeldReaches()
    ensures Reaches(CreateEgress, At(EgressWeb, 1), EgressHeld(), Outside)
  {
    var rest := Downs(EgressTransport, 1, 3) + Ups(3);
    EgressTransportReaches();
    EgressTurns(rest);
    EgressTouches();
    ReachesThen(CreateEgress, At(EgressWeb, 1), Touch(EgressWeb, WebrtcServers), At(EgressWeb, 1),
                [Turn(EgressTransport)] + rest, Outside);
  }

  lemma EgressGoesDown(rest: seq<Step>)
    requires Reaches(CreateEgress, At(EgressWeb, 1), rest, Outside)
    ensures Reaches(CreateEgress, Outside, [Down(EgressWeb, Routers)] + rest, Outside)
  {
    OneStep(CreateEgress, Outside, Down(EgressWeb, Routers), rest, Outside);
  }

  lemma EgressReach(reach: nat)
    ensures AllReach(CreateEgress, [EgressRound(reach)])
  {
    var h := CreateEgress;
    if reach == 0 {
      TouchReach(h, EgressWeb, Routers);
    } else if reach == 1 {
      NestReach(h, EgressWeb, Routers, WebrtcServers);
    } else {
      EgressHeldReaches();
      EgressGoesDown(EgressHeld());
    }
  }

  lemma DestroyPlaces(j: nat)
    requires j < 7
    ensures Place(Destroy, LockAt(Destroy, j)) == j
  {
  }

  lemma LeavePlaces(last: Lock, j: nat)
    requires j < 10 && (last == Transport2Router || last == Routers2Workers || last == Loads)
    ensures Place(Leave(last), LockAt(Leave(last), j)) == j
  {
  }

  lemma DestroyReaches()
    ensures Reaches(DestroyGroup, Outside, DestroyProgram(), Outside)
  {
    forall j | 0 <= j < 7 ensures Place(Destroy, LockAt(Destroy, j)) == j {
      DestroyPlaces(j);
    }
    DownsReach(DestroyGroup, Destroy, 0, 7);
    UpsReach(DestroyGroup, Destroy, 7);
    ReachesThen(DestroyGroup, Outside, Downs(Destroy, 0, 7), At(Destroy, 7), Ups(7), Outside);
  }

  lemma DestroyRoundsReach(h: Handler, found: bool)
    requires h == DestroyGroup
    ensures AllReach(h, DestroyRounds(found))
  {
    if found {
      DestroyReaches();
    } else {
      TouchReach(h, Destroy, RoomRouters);
    }
  }

  lemma SameBooks(a: Lock, b: Lock)
    requires a == Transport2Router || a == Routers2Workers || a == Loads
    requires b == Transport2Router || b == Routers2Workers || b == Loads
    ensures forall l :: Place(Leave(a), l) < 10 <==> Place(Leave(b), l) < 10
  {
    forall l ensures Place(Leave(a), l) < 10 <==> LeavePlace(l) < 10 {
    }
    forall l ensures Place(Leave(b), l) < 10 <==> LeavePlace(l) < 10 {
    }
  }

  /** One more lock below all the books, and back, in the chain that ends with it. */
  lemma LastLock(last: Lock, rest: seq<Step>)
    requires last == Transport2Router || last == Routers2Workers || last == Loads
    requires Reaches(Disconnect, Within(Leave(last), 10), rest, Outside)
    ensures Reaches(Disconnect, Within(Leave(last), 10), Last(last) + rest, Outside)
  {
    var c := Leave(last);
    OneStep(Disconnect, Within(c, 11), Up, rest, Outside);
    OneStep(Disconnect, Within(c, 10), Down(c, last), [Up] + rest, Outside);
    assert [Down(c, last)] + ([Up] + rest) == Last(last) + rest;
  }

  lemma TurnTo(a: Lock, b: Lock, rest: seq<Step>)
    requires a == Transport2Router || a == Routers2Workers || a == Loads
    requires b == Transport2Router || b == Routers2Workers || b == Loads
    requires Reaches(Disconnect, Within(Leave(b), 10), rest, Outside)
    ensures Reaches(Disconnect, Within(Leave(a), 10), [Turn(Leave(b))] + rest, Outside)
  {
    SameBooks(a, b);
    OneStep(Disconnect, Within(Leave(a), 10), Turn(Leave(b)), rest, Outside);
  }

  lemma LeaveTailReaches(reach: nat)
    ensures Reaches(Disconnect, Within(Leave(Transport2Router), 10), LeaveTail(reach), Outside)
  {
    if reach <= 1 {
      UpsReach(Disconnect, Leave(Transport2Router), 10);
      LastLock(Transport2Router, Ups(10));
    } else {
      var below := if reach == 2 then Ups(10) else [Turn(Leave(Loads))] + (Last(Loads) + Ups(10));
      if reach == 2 {
        UpsReach(Disconnect, Leave(Routers2Workers), 10);
      } else {
        UpsReach(Disconnect, Leave(Loads), 10);
        LastLock(Loads, Ups(10));
        TurnTo(Routers2Workers, Loads, Last(Loads) + Ups(10));
      }
      LastLock(Routers2Workers, below);
      TurnTo(Transport2Router, Routers2Workers, Last(Routers2Workers) + below);
      LastLock(Transport2Router, [Turn(Leave(Routers2Workers))] + (Last(Routers2Workers) + below));
    }
  }

  lemma LeaveReaches(reach: nat)
    ensures Reaches(Disconnect, Outside, LeaveProgram(reach), Outside)
  {
    var c := Leave(Transport2Router);
    LeaveTailReaches(reach);
    forall j | 0 <= j < 10 ensures Place(c, LockAt(c, j)) == j {
      LeavePlaces(Transport2Router, j);
    }
    DownsReach(Disconnect, c, 0, 10);
    ReachesThen(Disconnect, Outside, Downs(c, 0, 10), Within(c, 10), LeaveTail(reach), Outside);
  }

  /** One more lock below, and back. */
  lemma OutTouches(audio: bool, last: Lock, rest: seq<Step>)
    requires OutOf(OutChain(audio, last))
    requires Reaches(ProduceMedia, At(OutChain(audio, last), OutDepth(audio)), rest, Outside)
    ensures Reaches(ProduceMedia, At(OutChain(audio, last), OutDepth(audio)), OutTouch(audio, last) + rest, Outside)
  {
    var c, n := OutChain(audio, last), OutDepth(audio);
    DownStep(c, n, last);
    UpStep(ProduceMedia, c, n, rest, Outside);
    OneStep(ProduceMedia, At(c, n), Down(c, last), [Up] + rest, Outside);
    assert [Down(c, last)] + ([Up] + rest) == OutTouch(audio, last) + rest;
  }

  lemma OutTurns(audio: bool, last: Lock, next: Lock, rest: seq<Step>)
    requires OutOf(OutChain(audio, last)) && OutOf(OutChain(audio, next))
    requires Reaches(ProduceMedia, At(OutChain(audio, next), OutDepth(audio)), rest, Outside)
    ensures Reaches(ProduceMedia, At(OutChain(audio, last), OutDepth(audio)), OutTurn(audio, next, rest), Outside)
  {
    var c, d, n := OutChain(audio, last), OutChain(audio, next), OutDepth(audio);
    OutTouches(audio, next, rest);
    OutAlike(audio, last, next);
    OneStep(ProduceMedia, At(c, n), Turn(d), OutTouch(audio, next) + rest, Outside);
  }

  lemma OutAlike(audio: bool, last: Lock, next: Lock)
    requires OutOf(OutChain(audio, last)) && OutOf(OutChain(audio, next))
    ensures forall l ::
      Place(OutChain(audio, last), l) < OutDepth(audio) <==> Place(OutChain(audio, next), l) < OutDepth(audio)
  {
  }

  lemma OutEnds(audio: bool)
    ensures Reaches(ProduceMedia, At(OutChain(audio, Relays), OutDepth(audio)), OutEnd(audio), Outside)
  {
    if audio {
      UpsReach(ProduceMedia, AudioOut(Consumers), 2);
      OutTurns(true, Relays, Consumers, Ups(2));
    } else {
      UpsReach(ProduceMedia, VideoOut(Producers), 1);
      OutTurns(false, Consumers, Producers, Ups(1));
      OutTurns(false, Relays, Consumers, OutTurn(false, Producers, Ups(1)));
    }
  }

  lemma OutTailReaches(audio: bool, reach: nat)
    ensures
      Reaches(ProduceMedia, At(OutChain(audio, Transport2Router), OutDepth(audio)), OutTail(audio, reach), Outside)
  {
    var ups := Ups(OutDepth(audio));
    UpsReach(ProduceMedia, OutChain(audio, Transport2Router), OutDepth(audio));
    if reach == 1 {
      OutTouches(audio, Transport2Router, ups);
    } else if reach > 1 {
      var rest := if reach == 2 then ups else OutEnd(audio);
      UpsReach(ProduceMedia, OutChain(audio, Relays), OutDepth(audio));
      OutEnds(audio);
      OutTurns(audio, Transport2Router, Relays, rest);
      OutTouches(audio, Transport2Router, OutTurn(audio, Relays, rest));
    }
  }

  lemma OutPlaces(audio: bool, j: nat)
    requires j < OutDepth(audio)
    ensures Place(OutChain(audio, Transport2Router), LockAt(OutChain(audio, Transport2Router), j)) == j
  {
  }

  lemma OutReaches(audio: bool, reach: nat)
    ensures Reaches(ProduceMedia, Outside, OutProgram(audio, reach), Outside)
  {
    var c, n := OutChain(audio, Transport2Router), OutDepth(audio);
    forall j | 0 <= j < n ensures Place(c, LockAt(c, j)) == j {
      OutPlaces(audio, j);
    }
    OutTailReaches(audio, reach);
    DownsReach(ProduceMedia, c, 0, n);
    ReachesThen(ProduceMedia, Outside, Downs(c, 0, n), At(c, n), OutTail(audio, reach), Outside);
  }

  lemma DataOutPlaces(c: Chain, j: nat)
    requires (c == MovementOut || c == EventOut) && j < 3
    ensures Place(c, LockAt(c, j)) == j
  {
  }

  lemma DataOutReaches(h: Handler, c: Chain)
    requires (h == ProduceMovement && c == MovementOut) || (h == ProduceEvents && c == EventOut)
    ensures Reaches(h, Outside, Downs(c, 0, 3) + Ups(3), Outside)
  {
    forall j | 0 <= j < 3 ensures Place(c, LockAt(c, j)) == j {
      DataOutPlaces(c, j);
    }
    DownsReach(h, c, 0, 3);
    UpsReach(h, c, 3);
    ReachesThen(h, Outside, Downs(c, 0, 3), At(c, 3), Ups(3), Outside);
  }

  lemma DataOutReach(h: Handler, c: Chain)
    requires (h == ProduceMovement && c == MovementOut) || (h == ProduceEvents && c == EventOut)
    ensures AllReach(h, DataOutRounds(c))
  {
    DataOutReaches(h, c);
    LooksUpReach(h, [Downs(c, 0, 3) + Ups(3)]);
  }

  lemma LooksUpReach(h: Handler, last: seq<seq<Step>>)
    requires Uses(h, Endpoint) && Uses(h, Relay) && Uses(h, Transport) && AllReach(h, last)
    ensures AllReach(h, [Touch(Transport, Transport2Router)] + ([Touch(Relay, Relays)]
                        + ([Touch(Endpoint, Endpoints)] + last)))
  {
    TouchReach(h, Endpoint, Endpoints);
    BothReach(h, [Touch(Endpoint, Endpoints)], last);
    TouchReach(h, Relay, Relays);
    BothReach(h, [Touch(Relay, Relays)], [Touch(Endpoint, Endpoints)] + last);
    TouchReach(h, Transport, Transport2Router);
    BothReach(h, [Touch(Transport, Transport2Router)], [Touch(Relay, Relays)] + ([Touch(Endpoint, Endpoints)] + last));
  }

  lemma MediaOutReach(h: Handler, kind: Kind, reach: nat)
    requires h == ProduceMedia
    ensures AllReach(h, MediaOutRounds(kind, reach))
  {
    OutReaches(kind == AudioKind, reach);
  }

  /** What an ingress server does with producers, and the single looks at producers and consumers. */
  lemma OutReach(h: Handler, p: Path)
    requires h.ProduceMedia? || h.ProduceMovement? || h.ProduceEvents? || h.ProducerEnded?
    ensures AllReach(h, Rounds(h, p))
  {
    match h
    case ProduceMedia => MediaOutReach(h, p.kind, p.reach);
    case ProduceMovement => DataOutReach(h, MovementOut);
    case ProduceEvents => DataOutReach(h, EventOut);
    case ProducerEnded => NestReach(h, Ended, Producers, Consumers);
  }

  lemma SingleReach(h: Handler, p: Path)
    requires h.PauseConsumer? || h.PauseProducer? || h.CloseProducer?
    ensures AllReach(h, Rounds(h, p))
  {
    match h
    case PauseConsumer => TouchReach(h, ConsumerOnly, Consumers);
    case PauseProducer => TouchReach(h, AudioOnly, AudioProducers);
    case CloseProducer => TouchReach(h, VideoOnly, VideoProducers);
  }

  lemma AnswerReaches()
    ensures Reaches(RelayProducer, Outside, AnswerRound(), Outside)
  {
    var h, c := RelayProducer, Answer;
    AnswerReachesRest();
    OneStep(h, Outside, Down(c, RelayRouters), [Down(c, Relays)] + ([Down(c, PendingRelays)] + Ups(3)), Outside);
  }

  lemma AnswerReachesRest()
    ensures Reaches(RelayProducer, Within(Answer, 1), [Down(Answer, Relays)] + ([Down(Answer, PendingRelays)] + Ups(3)),
                    Outside)
  {
    var h, c := RelayProducer, Answer;
    UpsReach(h, c, 3);
    OneStep(h, Within(c, 2), Down(c, PendingRelays), Ups(3), Outside);
    OneStep(h, Within(c, 1), Down(c, Relays), [Down(c, PendingRelays)] + Ups(3), Outside);
  }

  lemma {:induction false} TimesReach(h: Handler, n: nat, round: seq<Step>)
    requires AllReach(h, [round])
    ensures AllReach(h, Times(n, round))
  {
    if n > 0 {
      TimesReach(h, n - 1, round);
      BothReach(h, [round], Times(n - 1, round));
    }
  }

  lemma RecordsReach(named: bool)
    ensures AllReach(RelayProducer, RecordRounds(named))
  {
    var h := RelayProducer;
    AnswerReaches();
    TouchReach(h, Answer, RelayRouters);
    TouchReach(h, Router, Routers);
    BothReach(h, [Touch(Router, Routers)], [if named then AnswerRound() else Touch(Answer, RelayRouters)]);
  }

  lemma AnswersReach(p: Path)
    ensures AllReach(RelayProducer, AnswerRounds(p))
  {
    var h := RelayProducer;
    RecordsReach(p.named);
    SelectReach(h, p.found, p.worker);
    var s1 := if p.found then RecordRounds(p.named) else [];
    BothReach(h, SelectRounds(p.found, p.worker), s1);
    TouchReach(h, Relay, Relays);
    BothReach(h, [Touch(Relay, Relays)], if p.kept then [] else SelectRounds(p.found, p.worker) + s1);
  }

  lemma ListReach(kind: Kind)
    ensures AllReach(RelayProducer, [ListRound(kind)])
  {
    match kind
    case AudioKind => NestReach(RelayProducer, Audio, AudioProducers, Producers);
    case VideoKind => NestReach(RelayProducer, Video, VideoProducers, Producers);
    case _ => TouchReach(RelayProducer, Data, DataProducers);
  }

  lemma ProducersReach(kind: Kind, n: nat)
    ensures AllReach(RelayProducer, ProducerRounds(kind, n))
  {
    var h := RelayProducer;
    TouchReach(h, Router, Routers);
    TimesReach(h, n, Touch(Router, Routers));
    ListReach(kind);
    var s1 := Times(n, Touch(Router, Routers)) + [ListRound(kind)];
    BothReach(h, Times(n, Touch(Router, Routers)), [ListRound(kind)]);
    TouchReach(h, RelayRouter, RelayRouters);
    var s2 := [Touch(RelayRouter, RelayRouters)] + s1;
    BothReach(h, [Touch(RelayRouter, RelayRouters)], s1);
    TouchReach(h, Room, RoomRouters);
    BothReach(h, [Touch(Room, RoomRouters)], s2);
    TouchReach(h, Relay, Relays);
    BothReach(h, [Touch(Relay, Relays)], [Touch(Room, RoomRouters)] + s2);
  }

  /** A handler that looks for consumers in this way. */
  predicate Consumes(h: Handler, c: Chain, consumed: Lock) {
    Uses(h, c) && Place(c, consumed) == 0 && Place(c, Consumers) == 1 && Uses(h, Transport) && Uses(h, Router)
  }

  lemma WayReach(h: Handler)
    requires Uses(h, Transport) && Uses(h, Router)
    ensures AllReach(h, WayRounds())
  {
    TouchReach(h, Transport, Transport2Router);
    TouchReach(h, Router, Routers);
    BothReach(h, [Touch(Transport, Transport2Router)], [Touch(Router, Routers)]);
  }

  lemma LookReach(h: Handler, c: Chain, consumed: Lock, look: Look)
    requires Consumes(h, c, consumed)
    ensures AllReach(h, OneLook(c, consumed, look))
  {
    TouchReach(h, c, consumed);
    WayReach(h);
    NestReach(h, c, consumed, Consumers);
    BothReach(h, WayRounds(), [Nest(c, consumed, Consumers)]);
    BothReach(h, [Touch(c, consumed)], WayRounds());
    BothReach(h, [Touch(c, consumed)], WayRounds() + [Nest(c, consumed, Consumers)]);
  }

  lemma {:induction false} LooksReach(h: Handler, c: Chain, consumed: Lock, looks: seq<Look>)
    requires Consumes(h, c, consumed)
    ensures AllReach(h, LookRounds(c, consumed, looks))
  {
    if looks != [] {
      LookReach(h, c, consumed, looks[0]);
      LooksReach(h, c, consumed, looks[1..]);
      BothReach(h, OneLook(c, consumed, looks[0]), LookRounds(c, consumed, looks[1..]));
    }
  }

  lemma {:induction false} ConsumesReach(h: Handler, listed: Chain, producers: Lock, c: Chain, consumed: Lock,
      lists: seq<seq<Look>>)
    requires Uses(h, listed) && Place(listed, producers) == 0 && Consumes(h, c, consumed)
    ensures AllReach(h, ConsumeRounds(listed, producers, c, consumed, lists))
  {
    if lists != [] {
      ConsumesReach(h, listed, producers, c, consumed, lists[1..]);
      LooksReach(h, c, consumed, lists[0]);
      var rest := ConsumeRounds(listed, producers, c, consumed, lists[1..]);
      BothReach(h, LookRounds(c, consumed, lists[0]), rest);
      TouchReach(h, listed, producers);
      BothReach(h, [Touch(listed, producers)], LookRounds(c, consumed, lists[0]) + rest);
    }
  }

  /** Setting up: routers, transports and relays. */
  lemma SetupReach(h: Handler, p: Path)
    requires h.CreateIngress? || h.CreateEgress? || h.RelayProducer?
    ensures AllReach(h, Rounds(h, p))
  {
    match h
    case CreateIngress =>
      SelectReach(h, p.found, p.worker);
      IngressReach(p.present);
      BothReach(h, SelectRounds(p.found, p.worker), if p.found then IngressRounds(p.present) else []);
    case CreateEgress =>
      SelectReach(h, p.found, p.worker);
      EgressReach(p.reach);
      BothReach(h, SelectRounds(p.found, p.worker), if p.found then [EgressRound(p.reach)] else []);
    case RelayProducer =>
      AnswersReach(p);
      ProducersReach(p.kind, p.count);
      BothReach(h, AnswerRounds(p), if p.kept || (p.found && p.named) then ProducerRounds(p.kind, p.count) else []);
  }

  lemma TeardownReach(h: Handler, p: Path)
    requires h.DestroyGroup? || h.Disconnect? || h.CreateGroup?
    ensures AllReach(h, Rounds(h, p))
  {
    match h
    case DestroyGroup => DestroyRoundsReach(h, p.found);
    case Disconnect => LeaveReaches(p.reach);
    case CreateGroup => GroupReaches(p.found, p.count);
  }

  lemma SmallReach(h: Handler, p: Path)
    requires h.StoreOffer? || h.ConnectPipe? || h.TransportClosed? || h.RouterClosed? || h.SelectRouter?
    ensures AllReach(h, Rounds(h, p))
  {
    match h
    case StoreOffer => TouchReach(h, Pending, PendingRelays);
    case ConnectPipe => TouchReach(h, Relay, Relays);
    case TransportClosed => NestReach(h, Closing, Transport2Router, Endpoints);
    case RouterClosed => TouchReach(h, Relay, Relays);
    case SelectRouter => SelectReach(h, p.found, p.worker);
  }

  /** Every handler is back outside of its sections after each of its rounds, whatever the path. */
  lemma DataReach(h: Handler, p: Path)
    requires h == MovementRequest || h == EventRequest
    ensures AllReach(h, Rounds(h, p))
  {
    match h
    case MovementRequest =>
      NestReach(h, ConsumeMovement, MovementConsumed, DataConsumers);
      TimesReach(h, p.count, Nest(ConsumeMovement, MovementConsumed, DataConsumers));
    case EventRequest =>
      NestReach(h, ConsumeEvent, EventConsumed, DataConsumers);
      TimesReach(h, p.count, Nest(ConsumeEvent, EventConsumed, DataConsumers));
  }

  lemma AudioReach(lists: seq<seq<Look>>)
    ensures AllReach(AudioRequest, ConsumeRounds(Audio, AudioProducers, ConsumeAudio, AudioConsumed, lists))
  {
    ConsumesReach(AudioRequest, Audio, AudioProducers, ConsumeAudio, AudioConsumed, lists);
  }

  lemma VideoReach(lists: seq<seq<Look>>)
    ensures AllReach(VideoRequest, ConsumeRounds(Video, VideoProducers, ConsumeVideo, VideoConsumed, lists))
  {
    ConsumesReach(VideoRequest, Video, VideoProducers, ConsumeVideo, VideoConsumed, lists);
  }

  lemma MediaReach(h: Handler, p: Path)
    requires h == AudioRequest || h == VideoRequest
    ensures AllReach(h, Rounds(h, p))
  {
    match h
    case AudioRequest => AudioReach(p.lists);
    case VideoRequest => VideoReach(p.lists);
  }

  lemma OtherReach(h: Handler, p: Path)
    requires !h.AudioRequest? && !h.VideoRequest? && !h.MovementRequest? && !h.EventRequest? && !h.CreateIngress?
      && !h.CreateEgress? && !h.RelayProducer? && !h.CreateGroup? && !h.DestroyGroup? && !h.Disconnect?
    ensures AllReach(h, Rounds(h, p))
  {
    match h
    case ProduceMedia => OutReach(h, p);
    case ProduceMovement => OutReach(h, p);
    case ProduceEvents => OutReach(h, p);
    case ProducerEnded => OutReach(h, p);
    case PauseConsumer => SingleReach(h, p);
    case PauseProducer => SingleReach(h, p);
    case CloseProducer => SingleReach(h, p);
    case _ => SmallReach(h, p);
  }

  lemma RoundsReach(h: Handler, p: Path)
    ensures AllReach(h, Rounds(h, p))
  {
    if h.CreateIngress? || h.CreateEgress? || h.RelayProducer? {
      SetupReach(h, p);
    } else if h.CreateGroup? || h.DestroyGroup? || h.Disconnect? {
      TeardownReach(h, p);
    } else if h.MovementRequest? || h.EventRequest? {
      DataReach(h, p);
    } else if h.AudioRequest? || h.VideoRequest? {
      MediaReach(h, p);
    } else {
      OtherReach(h, p);
    }
  }

  /** Every handler keeps to its sections on every path, from the first step to the last. */
  lemma ProgramProper(h: Handler, p: Path)
    ensures Proper(h, Outside, Program(h, p))
  {
    var rounds := Rounds(h, p);
    RoundsReach(h, p);
    var done := rounds[..if p.stop < |rounds| then p.stop else |rounds|];
    FlatReaches(h, done);
    ReachesProper(h, Outside, Flat(done));
  }
}

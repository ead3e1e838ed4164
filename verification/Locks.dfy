/** Which handlers of a media server can block one another for good.

    Every handler takes its locks in nested sections.  A section is a chain of locks: going down
    takes the next lock of the chain, going up gives the last one back.  Locks are not re-entrant,
    and the read locks are treated like the others. */
module Locks {

  datatype Lock =
    | RoomRouters | Workers | Routers | Routers2Workers | Loads | WebrtcServers | Transport2Router | Endpoints
    | PendingRelays | Relays | RelayRouters
    | Producers | Consumers | AudioProducers | DataConsumers | DataProducers | VideoProducers
    | VideoConsumed | AudioConsumed | MovementConsumed | EventConsumed

  datatype Chain =
    | Room | Load | Group | Router | Web | Transport | Offer | Endpoint | EgressWeb | EgressTransport
    | Destroy | Relay | RelayRouter | Answer | Audio | Video | Data
    | Leave(last: Lock) | ConsumeAudio | ConsumeVideo | ConsumeMovement | ConsumeEvent
    | Closing | Pending
    | AudioOut(last: Lock) | VideoOut(last: Lock) | MovementOut | EventOut
    | Ended | AudioOnly | VideoOnly | ConsumerOnly

  /** The place of a lock in a chain, counted from 0; 99 if it is not in the chain. */
  function Place(c: Chain, l: Lock): nat {
    match c
    case Room => if l == RoomRouters then 0 else 99
    case Load => if l == Routers2Workers then 0 else if l == Loads then 1 else 99
    case Group =>
      if l == RoomRouters then 0 else if l == Workers then 1 else if l == Routers then 2
      else if l == Routers2Workers then 3 else 99
    case Router => if l == Routers then 0 else 99
    case Web => if l == WebrtcServers then 0 else 99
    case Transport => if l == Transport2Router then 0 else 99
    case Offer => if l == Relays then 0 else if l == Routers then 1 else 99
    case Endpoint => if l == Endpoints then 0 else 99
    case EgressWeb => if l == Routers then 0 else if l == WebrtcServers then 1 else 99
    case EgressTransport =>
      if l == Routers then 0 else if l == Transport2Router then 1 else if l == Endpoints then 2 else 99
    case Destroy =>
      if l == RoomRouters then 0 else if l == PendingRelays then 1 else if l == Relays then 2
        else if l == RelayRouters then 3
      else if l == Routers2Workers then 4 else if l == Loads then 5 else if l == Routers then 6 else 99
    case Relay => if l == Relays then 0 else 99
    case RelayRouter => if l == RelayRouters then 0 else 99
    case Answer => if l == RelayRouters then 0 else if l == Relays then 1 else if l == PendingRelays then 2 else 99
    case Audio => if l == AudioProducers then 0 else if l == Producers then 1 else 99
    case Video => if l == VideoProducers then 0 else if l == Producers then 1 else 99
    case Data => if l == DataProducers then 0 else 99
    case Leave(last) => if l == last && LeavePlace(l) == 99 then 10 else LeavePlace(l)
    case ConsumeAudio => if l == AudioConsumed then 0 else if l == Consumers then 1 else 99
    case ConsumeVideo => if l == VideoConsumed then 0 else if l == Consumers then 1 else 99
    case ConsumeMovement => if l == MovementConsumed then 0 else if l == DataConsumers then 1 else 99
    case ConsumeEvent => if l == EventConsumed then 0 else if l == DataConsumers then 1 else 99
    case Closing => if l == Transport2Router then 0 else if l == Endpoints then 1 else 99
    case Pending => if l == PendingRelays then 0 else 99
    case AudioOut(last) =>
      if l == AudioProducers then 0 else if l == Producers then 1 else if l == last then 2 else 99
    case VideoOut(last) => if l == VideoProducers then 0 else if l == last then 1 else 99
    case MovementOut =>
      if l == MovementConsumed then 0 else if l == DataProducers then 1 else if l == DataConsumers then 2 else 99
    case EventOut =>
      if l == EventConsumed then 0 else if l == DataProducers then 1 else if l == DataConsumers then 2 else 99
    case Ended => if l == Producers then 0 else if l == Consumers then 1 else 99
    case AudioOnly => if l == AudioProducers then 0 else 99
    case VideoOnly => if l == VideoProducers then 0 else 99
    case ConsumerOnly => if l == Consumers then 0 else 99
  }

  /** The order in which `disconnectTransport` takes the books of the peers. */
  function LeavePlace(l: Lock): nat {
    match l
    case Producers => 0
    case Consumers => 1
    case AudioProducers => 2
    case DataConsumers => 3
    case DataProducers => 4
    case VideoProducers => 5
    case VideoConsumed => 6
    case AudioConsumed => 7
    case MovementConsumed => 8
    case EventConsumed => 9
    case _ => 99
  }

  datatype Position = Outside | Within(chain: Chain, depth: nat)

  function Holds(p: Position, l: Lock): bool {
    p.Within? && Place(p.chain, l) < p.depth
  }

  datatype Step = Down(chain: Chain, lock: Lock) | Up | Turn(chain: Chain)

  /** Going down takes the next lock of the chain at hand, or the first one of any chain.  Where two
      chains begin with the same locks, a task can turn from one to the other. */
  ghost predicate Follows(p: Position, s: Step) {
    match s
    case Up => p.Within? && p.depth > 0
    case Turn(c) => p.Within? && forall l :: Place(p.chain, l) < p.depth <==> Place(c, l) < p.depth
    case Down(c, l) =>
      Place(c, l) < 99 && (if p.Outside? then Place(c, l) == 0 else c == p.chain && Place(c, l) == p.depth)
  }

  ghost function Moved(p: Position, s: Step): Position
    requires Follows(p, s)
  {
    match s
    case Turn(c) => Within(c, p.depth)
    case Up => if p.depth == 1 then Outside else Within(p.chain, p.depth - 1)
    case Down(c, l) => Within(c, Place(c, l) + 1)
  }

  // ---------------------------------------------------------------- handlers

  datatype Handler =
    | SelectRouter | CreateGroup | CreateIngress | CreateEgress | DestroyGroup
    | RelayProducer | Disconnect | AudioRequest | VideoRequest | MovementRequest | EventRequest
    | StoreOffer | ConnectPipe | TransportClosed | RouterClosed
    | ProduceMedia | ProduceMovement | ProduceEvents
    | ProducerEnded | PauseConsumer | PauseProducer | CloseProducer

  /** The sections that a handler goes through, in whatever order and however often. */
  predicate Uses(h: Handler, c: Chain) {
    match h
    case SelectRouter => c == Room || c == Load
    case CreateGroup => c == Group
    case CreateIngress =>
      c == Room || c == Load || c == Router || c == Web || c == Transport || c == Offer || c == Endpoint
    case CreateEgress => c == Room || c == Load || c == EgressWeb || c == EgressTransport
    case DestroyGroup => c == Destroy
    case RelayProducer =>
      || c == Room || c == Load || c == Router || c == Relay || c == RelayRouter || c == Answer
      || c == Audio || c == Video || c == Data
    case Disconnect => c == Leave(Transport2Router) || c == Leave(Routers2Workers) || c == Leave(Loads)
    case AudioRequest => c == Audio || c == ConsumeAudio || c == Transport || c == Router
    case VideoRequest => c == Video || c == ConsumeVideo || c == Transport || c == Router
    case MovementRequest => c == ConsumeMovement
    case EventRequest => c == ConsumeEvent
    case StoreOffer => c == Pending
    case ConnectPipe => c == Relay
    case TransportClosed => c == Closing
    case RouterClosed => c == Relay
    case ProduceMedia => OutOf(c)
    case ProduceMovement => c == Transport || c == Relay || c == Endpoint || c == MovementOut
    case ProduceEvents => c == Transport || c == Relay || c == Endpoint || c == EventOut
    case ProducerEnded => c == Ended
    case PauseConsumer => c == ConsumerOnly
    case PauseProducer => c == AudioOnly
    case CloseProducer => c == VideoOnly
  }

  /** The sections in which an ingress server enters a media producer and relays it. */
  predicate OutOf(c: Chain) {
    || (c.AudioOut? && (c.last == Transport2Router || c.last == Relays || c.last == Consumers))
    || (c.VideoOut?
        && (c.last == Transport2Router || c.last == Relays || c.last == Consumers || c.last == Producers))
  }

  /** From position `p` on, the program goes through sections of its handler and ends outside. */
  ghost predicate Proper(h: Handler, p: Position, program: seq<Step>)
    decreases |program|
  {
    if program == [] then p.Outside?
    else
      && Follows(p, program[0]) && (!program[0].Up? ==> Uses(h, program[0].chain))
      && Proper(h, Moved(p, program[0]), program[1..])
  }

  datatype Task = Task(handler: Handler, position: Position, rest: seq<Step>)

  predicate Blocked(ts: seq<Task>, i: nat)
    requires i < |ts|
  {
    && ts[i].rest != [] && ts[i].rest[0].Down?
    && exists j :: 0 <= j < |ts| && Holds(ts[j].position, ts[i].rest[0].lock)
  }

  ghost predicate Steps(ts: seq<Task>, ts': seq<Task>, i: nat) {
    && i < |ts| && ts[i].rest != [] && !Blocked(ts, i) && Follows(ts[i].position, ts[i].rest[0])
    && ts' == ts[i := Task(ts[i].handler, Moved(ts[i].position, ts[i].rest[0]), ts[i].rest[1..])]
  }

  ghost predicate SomeStep(ts: seq<Task>, ts': seq<Task>) {
    exists i :: Steps(ts, ts', i)
  }

  /** Tasks of handlers in `mix` that are about to start. */
  ghost predicate Start(ts: seq<Task>, mix: set<Handler>) {
    forall i :: 0 <= i < |ts| ==>
      ts[i].handler in mix && ts[i].position == Outside && Proper(ts[i].handler, Outside, ts[i].rest)
  }

  ghost predicate Run(trace: seq<seq<Task>>, mix: set<Handler>) {
    && trace != [] && Start(trace[0], mix)
    && (forall k :: 0 < k < |trace| ==> SomeStep(trace[k - 1], trace[k]))
  }

  ghost predicate Stuck(ts: seq<Task>) {
    && (exists i :: 0 <= i < |ts| && ts[i].rest != [])
    && (forall i :: 0 <= i < |ts| && ts[i].rest != [] ==> Blocked(ts, i))
  }

  ghost predicate DeadlockFree(mix: set<Handler>) {
    forall trace :: Run(trace, mix) ==> !Stuck(trace[|trace| - 1])
  }

  /** The pairs that take two locks in opposite orders with nothing to keep them apart. */
  predicate Clash(a: Handler, b: Handler) {
    || (a == DestroyGroup && b == RelayProducer)
    || (a == Disconnect
        && (b == RelayProducer || b == AudioRequest || b == VideoRequest || b == MovementRequest || b == EventRequest
            || b == ProduceMedia || b == ProduceMovement || b == ProduceEvents))
  }

  ghost predicate Peaceful(mix: set<Handler>) {
    forall a, b :: a in mix && b in mix ==> !Clash(a, b)
  }

  // ---------------------------------------------------------------- ranks

  /** Waiting at depth `n` of a chain; whoever holds what is waited for ranks higher. */
  function Rank(c: Chain, n: nat): nat {
    match c
    case Room => 10
    case Load => if n == 0 then 14 else 18
    case Group => if n == 0 then 10 else if n == 1 then 11 else if n == 2 then 16 else 17
    case Router => 16
    case Web => 19
    case Transport => 20
    case Offer => if n == 0 then 12 else 16
    case Endpoint => 21
    case EgressWeb => if n == 0 then 16 else 19
    case EgressTransport => if n == 0 then 16 else if n == 1 then 20 else 21
    case Destroy =>
      if n == 0 then 10 else if n == 1 then 11 else if n == 2 then 12 else if n == 3 then 13
      else if n == 4 then 14 else if n == 5 then 15 else 16
    case Relay => 12
    case RelayRouter => 11
    case Answer => if n == 0 then 11 else if n == 1 then 12 else 13
    case Audio => if n == 0 then 1 else 2
    case Video => if n == 0 then 1 else 2
    case Data => 10
    case Leave(last) =>
      if n < 10 then n + 2 else if last == Transport2Router then 20 else if last == Routers2Workers then 14 else 15
    case ConsumeAudio => if n == 0 then 7 else 22
    case ConsumeVideo => if n == 0 then 6 else 22
    case ConsumeMovement => if n == 0 then 8 else 22
    case ConsumeEvent => if n == 0 then 9 else 22
    case Closing => if n == 0 then 20 else 21
    case Pending => 11
    case AudioOut(last) => if n == 0 then 1 else if n == 1 then 2 else LastRank(last)
    case VideoOut(last) => if n == 0 then 1 else LastRank(last)
    case MovementOut => if n == 0 then 8 else if n == 1 then 10 else 22
    case EventOut => if n == 0 then 9 else if n == 1 then 10 else 22
    case Ended => if n == 0 then 2 else 3
    case AudioOnly => 1
    case VideoOnly => 1
    case ConsumerOnly => 3
  }

  function LastRank(last: Lock): nat {
    if last == Relays then 12 else if last == Transport2Router then 20 else if last == Consumers then 22 else 2
  }

  /** Two sections of handlers that do not clash. */
  predicate Apart(c: Chain, d: Chain) {
    && !(c.Destroy? && (d.Answer? || d.RelayRouter?))
    && !(c.Leave?
         && (d.Audio? || d.Video? || d.Data? || d.ConsumeAudio? || d.ConsumeVideo? || d.ConsumeMovement?
             || d.ConsumeEvent? || d.AudioOut? || d.VideoOut? || d.MovementOut? || d.EventOut?))
  }

  predicate Sectional(c: Chain) {
    && (c.Leave? ==> c.last == Transport2Router || c.last == Routers2Workers || c.last == Loads)
    && (c.AudioOut? || c.VideoOut? ==> OutOf(c))
  }

  /** Lock `l` is waited for at depth `n` of `c` and held at depth `m` of `d`, where `w` is next. */
  ghost predicate Waits(c: Chain, n: nat, l: Lock, d: Chain, m: nat, w: Lock) {
    && Place(c, l) == n < 99 && Place(d, l) < m && Place(d, w) == m < 99
    && Apart(c, d) && Apart(d, c) && Sectional(c) && Sectional(d)
  }

  /** Two tasks that hold nothing in common; these two locks are what matters. */
  ghost predicate Exclude(c: Chain, n: nat, d: Chain, m: nat) {
    && !(Place(c, RoomRouters) < n && Place(d, RoomRouters) < m)
    && !(Place(c, Routers2Workers) < n && Place(d, Routers2Workers) < m)
  }

  /** Where a lock is waited for, whoever waits. */
  lemma LoadsWait(c: Chain, n: nat)
    requires Place(c, Routers2Workers) == n < 99 && Sectional(c)
    ensures Rank(c, n) == 14 || Rank(c, n) == 17
  {
  }

  lemma TransportWait(c: Chain, n: nat)
    requires Place(c, Transport2Router) == n < 99 && Sectional(c)
    ensures Rank(c, n) == 20
  {
  }

  lemma RelayWait(c: Chain, n: nat)
    requires Place(c, Relays) == n < 99 && Sectional(c)
    ensures Rank(c, n) == 12
  {
  }

  lemma RelayRouterWait(c: Chain, n: nat)
    requires Place(c, RelayRouters) == n < 99 && Sectional(c) && c != Destroy
    ensures Rank(c, n) == 11
  {
  }

  lemma LoadOutranks(c: Chain, n: nat, l: Lock, m: nat, w: Lock)
    requires Waits(c, n, l, Load, m, w) && Exclude(c, n, Load, m)
    ensures Rank(c, n) < Rank(Load, m)
  {
    assert l == Routers2Workers;
    LoadsWait(c, n);
  }

  lemma RoomWait(c: Chain, n: nat)
    requires Place(c, RoomRouters) == n < 99 && Sectional(c)
    ensures n == 0 && Rank(c, n) == 10
  {
  }

  lemma RouterWait(c: Chain, n: nat)
    requires Place(c, Routers) == n < 99 && Sectional(c)
    ensures Rank(c, n) == 16
  {
  }

  lemma GroupOutranks(c: Chain, n: nat, l: Lock, m: nat, w: Lock)
    requires Waits(c, n, l, Group, m, w) && Exclude(c, n, Group, m)
    ensures Rank(c, n) < Rank(Group, m)
  {
    GroupAbove(l, m);
    if l == RoomRouters {
      RoomWait(c, n);
    } else if l == Routers {
      RouterWait(c, n);
    } else {
      WorkerWait(c, n);
    }
  }

  lemma GroupAbove(l: Lock, m: nat)
    requires Place(Group, l) < m <= 3
    ensures l == RoomRouters || l == Workers || l == Routers
    ensures Rank(Group, m) > if l == RoomRouters then 10 else if l == Workers then 11 else 16
  {
  }

  lemma WorkerWait(c: Chain, n: nat)
    requires Place(c, Workers) == n < 99 && Sectional(c)
    ensures Rank(c, n) == 11
  {
  }

  lemma DestroyOutranksRooms(c: Chain, n: nat, l: Lock, m: nat, w: Lock)
    requires Waits(c, n, l, Destroy, m, w) && Exclude(c, n, Destroy, m) && (c == Group || c == Destroy || c == Room)
    ensures Rank(c, n) < Rank(Destroy, m)
  {
    assert Place(c, RoomRouters) == 0 && Place(Destroy, RoomRouters) == 0;
    assert n == 0;
  }

  lemma LoadWait(c: Chain, n: nat, l: Lock)
    requires Place(c, l) == n < 99 && Sectional(c) && c != Group && c != Destroy
    requires l == PendingRelays || l == Relays || l == Routers2Workers || l == Loads
    ensures l == PendingRelays ==> c == Answer || Rank(c, n) == 11
    ensures l == Relays ==> Rank(c, n) == 12
    ensures l == Routers2Workers ==> Rank(c, n) == 14
    ensures l == Loads ==> Rank(c, n) == 15 || (c == Load && n == 1)
  {
    if l == Relays {
      RelayWait(c, n);
    } else if l == Routers2Workers {
      LoadsWait(c, n);
    }
  }

  lemma DestroyOutranksOthers(c: Chain, n: nat, l: Lock, m: nat, w: Lock)
    requires Waits(c, n, l, Destroy, m, w) && Exclude(c, n, Destroy, m) && c != Group && c != Destroy && c != Room
    ensures Rank(c, n) < Rank(Destroy, m)
  {
    if l == RoomRouters {
      RoomWait(c, n);
    } else {
      DestroyHolds(l, c, m, w);
      DestroyAbove(l, m);
      LoadWait(c, n, l);
    }
  }

  lemma DestroyAbove(l: Lock, m: nat)
    requires l == PendingRelays || l == Relays || l == Routers2Workers || l == Loads
    requires Place(Destroy, l) < m
    ensures Rank(Destroy, m) > if l == PendingRelays then 11 else if l == Relays then 12
                               else if l == Routers2Workers then 14 else 15
  {
  }

  /** The locks of a teardown that somebody else can wait for inside a section. */
  lemma DestroyHolds(l: Lock, c: Chain, m: nat, w: Lock)
    requires Apart(c, Destroy) && Apart(Destroy, c) && Sectional(c)
    requires Place(c, l) < 99 && Place(Destroy, l) < m && Place(Destroy, w) == m < 99
    requires l != RoomRouters && c != Group && c != Destroy && c != Room
    ensures l == PendingRelays || l == Relays || l == Routers2Workers || l == Loads
  {
  }

  lemma DestroyOutranks(c: Chain, n: nat, l: Lock, m: nat, w: Lock)
    requires Waits(c, n, l, Destroy, m, w) && Exclude(c, n, Destroy, m)
    ensures Rank(c, n) < Rank(Destroy, m)
  {
    if c == Group || c == Destroy || c == Room {
      DestroyOutranksRooms(c, n, l, m, w);
    } else {
      DestroyOutranksOthers(c, n, l, m, w);
    }
  }

  lemma LeaveOutranks(c: Chain, n: nat, l: Lock, last: Lock, m: nat, w: Lock)
    requires Waits(c, n, l, Leave(last), m, w)
    ensures Rank(c, n) < Rank(Leave(last), m)
  {
    HeldByLeave(last, l, m, w);
    BesidesLeaves(c, n, l, Leave(last));
    if c.Leave? {
      LeaveRank(c.last, n);
    }
    LeaveRank(last, m);
  }

  lemma HeldByLeave(last: Lock, l: Lock, m: nat, w: Lock)
    requires Place(Leave(last), l) < m && Place(Leave(last), w) == m < 99
    ensures LeavePlace(l) < 10 && forall other :: Place(Leave(other), l) == LeavePlace(l)
  {
  }

  lemma LeaveRank(last: Lock, n: nat)
    ensures if n < 10 then Rank(Leave(last), n) == n + 2 else Rank(Leave(last), n) >= 14
  {
  }

  /** Whoever waits for a lock of a disconnect's section, but for another disconnect, comes before it
      or takes the lock alone. */
  lemma BesidesLeaves(c: Chain, n: nat, l: Lock, d: Chain)
    requires LeavePlace(l) < 10 && Place(c, l) == n < 99 && d.Leave? && Apart(d, c)
    ensures c.Leave? || Rank(c, n) <= LeavePlace(l) + 2
  {
  }

  lemma RoutersOutrank(c: Chain, n: nat, l: Lock, d: Chain, m: nat, w: Lock)
    requires Waits(c, n, l, d, m, w) && (d == Offer || d == EgressWeb || d == EgressTransport || d == Closing)
    ensures Rank(c, n) < Rank(d, m)
  {
    match d
    case Offer => assert l == Relays; RelayWait(c, n);
    case EgressWeb => assert l == Routers; RouterWait(c, n);
    case EgressTransport => TransportsOutrank(c, n, l, m, w);
    case Closing => assert l == Transport2Router; TransportWait(c, n);
  }

  lemma TransportsOutrank(c: Chain, n: nat, l: Lock, m: nat, w: Lock)
    requires Waits(c, n, l, EgressTransport, m, w)
    ensures Rank(c, n) < Rank(EgressTransport, m)
  {
    if l == Routers {
      RouterWait(c, n);
    } else {
      assert l == Transport2Router;
      TransportWait(c, n);
    }
  }

  lemma AnswerOutranks(c: Chain, n: nat, l: Lock, m: nat, w: Lock)
    requires Waits(c, n, l, Answer, m, w)
    ensures Rank(c, n) < Rank(Answer, m)
  {
    if l == RelayRouters {
      RelayRouterWait(c, n);
    } else {
      assert l == Relays;
      RelayWait(c, n);
    }
  }

  lemma ProducersOutrank(c: Chain, n: nat, l: Lock, d: Chain, m: nat, w: Lock)
    requires Waits(c, n, l, d, m, w) && (d == Audio || d == Video)
    ensures Rank(c, n) < Rank(d, m)
  {
    match d
    case Audio => assert l == AudioProducers; ListWait(c, n, l);
    case Video => assert l == VideoProducers; ListWait(c, n, l);
  }

  /** The lists of producers are waited for at the lowest rank, the producers themselves next. */
  lemma ListWait(c: Chain, n: nat, l: Lock)
    requires Place(c, l) == n < 99 && Sectional(c) && !c.Leave?
    requires l == AudioProducers || l == VideoProducers || l == Producers
    ensures Rank(c, n) == if l == Producers then 2 else 1
  {
    if l == Producers {
      ProducersWait(c, n);
    }
  }

  lemma ProducersWait(c: Chain, n: nat)
    requires Place(c, Producers) == n < 99 && Sectional(c) && !c.Leave?
    ensures Rank(c, n) == 2
  {
  }

  lemma ConsumedWait(c: Chain, n: nat, l: Lock)
    requires Place(c, l) == n < 99 && Sectional(c) && !c.Leave? && (l == MovementConsumed || l == EventConsumed)
    ensures Rank(c, n) == if l == MovementConsumed then 8 else 9
  {
    if l == MovementConsumed {
      assert c == ConsumeMovement || c == MovementOut;
    } else {
      assert c == ConsumeEvent || c == EventOut;
    }
  }

  lemma DataWait(c: Chain, n: nat)
    requires Place(c, DataProducers) == n < 99 && Sectional(c) && !c.Leave?
    ensures Rank(c, n) == 10
  {
  }

  /** An ingress server that relays what a peer produces. */
  lemma MediaOutsOutrank(c: Chain, n: nat, l: Lock, d: Chain, m: nat, w: Lock)
    requires Waits(c, n, l, d, m, w) && (d.AudioOut? || d.VideoOut?)
    ensures Rank(c, n) < Rank(d, m)
  {
    if d.AudioOut? {
      assert l == AudioProducers || l == Producers;
    } else {
      assert l == VideoProducers;
    }
    ListWait(c, n, l);
  }

  lemma DataOutsOutrank(c: Chain, n: nat, l: Lock, d: Chain, m: nat, w: Lock)
    requires Waits(c, n, l, d, m, w) && (d == MovementOut || d == EventOut)
    ensures Rank(c, n) < Rank(d, m)
  {
    DataOutAbove(l, d, m, w);
    if l == DataProducers {
      DataWait(c, n);
    } else {
      ConsumedWait(c, n, l);
    }
  }

  lemma DataOutAbove(l: Lock, d: Chain, m: nat, w: Lock)
    requires Place(d, l) < m && Place(d, w) == m < 99 && (d == MovementOut || d == EventOut)
    ensures if l == DataProducers then Rank(d, m) == 22
            else Rank(d, m) >= 10 && l == if d == MovementOut then MovementConsumed else EventConsumed
  {
  }

  lemma EndedOutranks(c: Chain, n: nat, l: Lock, m: nat, w: Lock)
    requires Waits(c, n, l, Ended, m, w)
    ensures Rank(c, n) < Rank(Ended, m)
  {
    assert l == Producers;
    if !c.Leave? {
      ListWait(c, n, l);
    }
  }

  lemma MediaOutranks(c: Chain, n: nat, l: Lock, d: Chain, m: nat, w: Lock)
    requires Waits(c, n, l, d, m, w) && (d == ConsumeAudio || d == ConsumeVideo)
    ensures Rank(c, n) < Rank(d, m)
  {
    match d
    case ConsumeAudio => assert l == AudioConsumed;
    case ConsumeVideo => assert l == VideoConsumed;
  }

  lemma DataOutranks(c: Chain, n: nat, l: Lock, d: Chain, m: nat, w: Lock)
    requires Waits(c, n, l, d, m, w) && (d == ConsumeMovement || d == ConsumeEvent)
    ensures Rank(c, n) < Rank(d, m)
  {
    match d
    case ConsumeMovement => assert l == MovementConsumed;
    case ConsumeEvent => assert l == EventConsumed;
  }

  lemma BooksOutrank(c: Chain, n: nat, l: Lock, d: Chain, m: nat, w: Lock)
    requires Waits(c, n, l, d, m, w)
    requires d == Answer || d == Audio || d == Video || d == ConsumeAudio || d == ConsumeVideo || d == ConsumeMovement
      || d == ConsumeEvent
    ensures Rank(c, n) < Rank(d, m)
  {
    if d == Answer {
      AnswerOutranks(c, n, l, m, w);
    } else if d == Audio || d == Video {
      ProducersOutrank(c, n, l, d, m, w);
    } else if d == ConsumeAudio || d == ConsumeVideo {
      MediaOutranks(c, n, l, d, m, w);
    } else {
      DataOutranks(c, n, l, d, m, w);
    }
  }

  lemma ListsOutrank(c: Chain, n: nat, l: Lock, d: Chain, m: nat, w: Lock)
    requires Waits(c, n, l, d, m, w)
    requires d == Answer || d == Audio || d == Video || d == ConsumeAudio || d == ConsumeVideo || d == ConsumeMovement
      || d == ConsumeEvent || d.AudioOut? || d.VideoOut? || d == MovementOut || d == EventOut
    ensures Rank(c, n) < Rank(d, m)
  {
    if d.AudioOut? || d.VideoOut? {
      MediaOutsOutrank(c, n, l, d, m, w);
    } else if d == MovementOut || d == EventOut {
      DataOutsOutrank(c, n, l, d, m, w);
    } else {
      BooksOutrank(c, n, l, d, m, w);
    }
  }

  lemma OneLock(d: Chain, l: Lock, m: nat, w: Lock)
    requires Place(d, l) < m && Place(d, w) == m < 99
    ensures !(d.Room? || d.Router? || d.Web? || d.Transport? || d.Endpoint? || d.Relay? || d.RelayRouter? || d.Data?
      || d.Pending? || d.AudioOnly? || d.VideoOnly? || d.ConsumerOnly?)
  {
  }

  /** The holder ranks higher, if it waits itself. */
  lemma HolderOutranks(c: Chain, n: nat, l: Lock, d: Chain, m: nat, w: Lock)
    requires Waits(c, n, l, d, m, w) && Exclude(c, n, d, m)
    ensures Rank(c, n) < Rank(d, m)
  {
    OneLock(d, l, m, w);
    match d
    case Load => LoadOutranks(c, n, l, m, w);
    case Group => GroupOutranks(c, n, l, m, w);
    case Destroy => DestroyOutranks(c, n, l, m, w);
    case Leave(last) => LeaveOutranks(c, n, l, last, m, w);
    case Offer => RoutersOutrank(c, n, l, d, m, w);
    case EgressWeb => RoutersOutrank(c, n, l, d, m, w);
    case EgressTransport => RoutersOutrank(c, n, l, d, m, w);
    case Closing => RoutersOutrank(c, n, l, d, m, w);
    case Ended => EndedOutranks(c, n, l, m, w);
    case _ => ListsOutrank(c, n, l, d, m, w);
  }

  // ---------------------------------------------------------------- what every step keeps

  /** Every task follows a program of its handler, and no two hold the same lock. */
  ghost predicate Sound(ts: seq<Task>, mix: set<Handler>) {
    && (forall i :: 0 <= i < |ts| ==> Orderly(ts[i], mix))
    && (forall i, j :: 0 <= i < j < |ts| ==> Exclusive(ts[i].position, ts[j].position))
  }

  ghost predicate Orderly(t: Task, mix: set<Handler>) {
    && t.handler in mix && Proper(t.handler, t.position, t.rest)
    && (t.position.Within? ==> Uses(t.handler, t.position.chain) && t.position.depth > 0)
  }

  ghost predicate Exclusive(p: Position, q: Position) {
    forall l :: !(Holds(p, l) && Holds(q, l))
  }

  /** The lock at place `n` of a chain. */
  function LockAt(c: Chain, n: nat): Lock {
    match c
    case Room => RoomRouters
    case Load => if n == 0 then Routers2Workers else Loads
    case Group =>
      if n == 0 then RoomRouters else if n == 1 then Workers else if n == 2 then Routers else Routers2Workers
    case Router => Routers
    case Web => WebrtcServers
    case Transport => Transport2Router
    case Offer => if n == 0 then Relays else Routers
    case Endpoint => Endpoints
    case EgressWeb => if n == 0 then Routers else WebrtcServers
    case EgressTransport => if n == 0 then Routers else if n == 1 then Transport2Router else Endpoints
    case Destroy =>
      if n == 0 then RoomRouters else if n == 1 then PendingRelays else if n == 2 then Relays
        else if n == 3 then RelayRouters
      else if n == 4 then Routers2Workers else if n == 5 then Loads else Routers
    case Relay => Relays
    case RelayRouter => RelayRouters
    case Answer => if n == 0 then RelayRouters else if n == 1 then Relays else PendingRelays
    case Audio => if n == 0 then AudioProducers else Producers
    case Video => if n == 0 then VideoProducers else Producers
    case Data => DataProducers
    case Leave(last) =>
      if n == 0 then Producers else if n == 1 then Consumers else if n == 2 then AudioProducers
        else if n == 3 then DataConsumers
      else if n == 4 then DataProducers else if n == 5 then VideoProducers else if n == 6 then VideoConsumed
      else if n == 7 then AudioConsumed else if n == 8 then MovementConsumed else if n == 9 then EventConsumed else last
    case ConsumeAudio => if n == 0 then AudioConsumed else Consumers
    case ConsumeVideo => if n == 0 then VideoConsumed else Consumers
    case ConsumeMovement => if n == 0 then MovementConsumed else DataConsumers
    case ConsumeEvent => if n == 0 then EventConsumed else DataConsumers
    case Closing => if n == 0 then Transport2Router else Endpoints
    case Pending => PendingRelays
    case AudioOut(last) => if n == 0 then AudioProducers else if n == 1 then Producers else last
    case VideoOut(last) => if n == 0 then VideoProducers else last
    case MovementOut => if n == 0 then MovementConsumed else if n == 1 then DataProducers else DataConsumers
    case EventOut => if n == 0 then EventConsumed else if n == 1 then DataProducers else DataConsumers
    case Ended => if n == 0 then Producers else Consumers
    case AudioOnly => AudioProducers
    case VideoOnly => VideoProducers
    case ConsumerOnly => Consumers
  }

  lemma LockAtPlace(c: Chain, l: Lock)
    requires Place(c, l) < 99
    ensures LockAt(c, Place(c, l)) == l
  {
    if c.Leave? {
      LeaveAtPlace(c.last, l);
    } else if c.AudioOut? || c.VideoOut? || c.MovementOut? || c.EventOut? {
      OutAtPlace(c, l);
    }
  }

  lemma OutAtPlace(c: Chain, l: Lock)
    requires Place(c, l) < 99 && (c.AudioOut? || c.VideoOut? || c.MovementOut? || c.EventOut?)
    ensures LockAt(c, Place(c, l)) == l
  {
  }

  lemma LeaveAtPlace(last: Lock, l: Lock)
    requires Place(Leave(last), l) < 99
    ensures LockAt(Leave(last), Place(Leave(last), l)) == l
  {
    if LeavePlace(l) == 99 {
      assert l == last;
    } else {
      LeaveAtOwnPlace(last, l);
    }
  }

  lemma LeaveAtOwnPlace(last: Lock, l: Lock)
    requires LeavePlace(l) != 99
    ensures Place(Leave(last), l) == LeavePlace(l) && LockAt(Leave(last), LeavePlace(l)) == l
  {
    match l
    case Producers =>
    case Consumers =>
    case AudioProducers =>
    case DataConsumers =>
    case DataProducers =>
    case _ =>
  }

  lemma PlaceInjective(c: Chain, x: Lock, y: Lock)
    requires Place(c, x) == Place(c, y) < 99
    ensures x == y
  {
    LockAtPlace(c, x);
    LockAtPlace(c, y);
  }

  lemma HoldsAfterDown(p: Position, c: Chain, l: Lock, x: Lock)
    requires Sectional(c) && Follows(p, Down(c, l)) && Holds(Moved(p, Down(c, l)), x)
    ensures Holds(p, x) || x == l
  {
    if Place(c, x) == Place(c, l) {
      PlaceInjective(c, x, l);
    }
  }

  lemma MovedExclusive(p: Position, s: Step, q: Position)
    requires Follows(p, s) && Exclusive(p, q)
    requires s.Down? ==> Sectional(s.chain) && !Holds(q, s.lock)
    ensures Exclusive(Moved(p, s), q)
  {
    forall l ensures !(Holds(Moved(p, s), l) && Holds(q, l)) {
      if Holds(Moved(p, s), l) {
        if s.Down? {
          HoldsAfterDown(p, s.chain, s.lock, l);
        } else {
          assert Holds(p, l);
        }
      }
    }
  }

  lemma StepSound(ts: seq<Task>, ts': seq<Task>, i: nat, mix: set<Handler>)
    requires Sound(ts, mix) && Steps(ts, ts', i)
    ensures Sound(ts', mix)
  {
    var t, s := ts[i], ts[i].rest[0];
    assert Orderly(t, mix);
    forall j | 0 <= j < |ts| && j != i ensures Exclusive(ts'[i].position, ts[j].position) {
      assert Exclusive(t.position, ts[j].position) by {
        if i < j {
          assert Exclusive(ts[i].position, ts[j].position);
        } else {
          assert Exclusive(ts[j].position, ts[i].position);
        }
      }
      if s.Down? {
        UsedSectional(t.handler, s.chain);
      }
      MovedExclusive(t.position, s, ts[j].position);
    }
  }

  lemma UsedSectional(h: Handler, c: Chain)
    requires Uses(h, c)
    ensures Sectional(c)
  {
  }

  lemma {:induction false} RunSound(trace: seq<seq<Task>>, mix: set<Handler>, k: nat)
    requires Run(trace, mix) && k < |trace|
    ensures Sound(trace[k], mix)
  {
    if k > 0 {
      RunSound(trace, mix, k - 1);
      assert SomeStep(trace[k - 1], trace[k]);
      var i :| Steps(trace[k - 1], trace[k], i);
      StepSound(trace[k - 1], trace[k], i, mix);
    }
  }

  // ---------------------------------------------------------------- someone can always go on

  function RankOf(t: Task): nat {
    if t.rest == [] || !t.rest[0].Down? then 0 else Rank(t.rest[0].chain, Place(t.rest[0].chain, t.rest[0].lock))
  }

  lemma {:induction false} HighestRank(ts: seq<Task>, n: nat) returns (i: nat)
    requires n <= |ts| && exists j :: 0 <= j < n && ts[j].rest != []
    ensures i < n && ts[i].rest != []
    ensures forall j :: 0 <= j < n && ts[j].rest != [] ==> RankOf(ts[j]) <= RankOf(ts[i])
    decreases n
  {
    if exists j :: 0 <= j < n - 1 && ts[j].rest != [] {
      i := HighestRank(ts, n - 1);
      if ts[n - 1].rest != [] && RankOf(ts[n - 1]) > RankOf(ts[i]) {
        i := n - 1;
      }
    } else {
      i := n - 1;
    }
  }

  lemma UsesApart(a: Handler, c: Chain, b: Handler, d: Chain)
    requires Uses(a, c) && Uses(b, d) && !Clash(a, b) && !Clash(b, a)
    ensures Apart(c, d) && Apart(d, c)
  {
    UsesApartFrom(a, c, b, d);
    UsesApartFrom(b, d, a, c);
  }

  lemma UsesApartFrom(a: Handler, c: Chain, b: Handler, d: Chain)
    requires Uses(a, c) && Uses(b, d) && !Clash(a, b)
    ensures Apart(c, d)
  {
    if c.Destroy? {
      assert a == DestroyGroup && b != RelayProducer;
    } else if c.Leave? {
      BookUsers(b, d);
    }
  }

  /** Handlers that clash with a disconnect are those that take its books the other way round. */
  lemma BookUsers(b: Handler, d: Chain)
    requires Uses(b, d) && !Clash(Disconnect, b)
    ensures Apart(Leave(Loads), d)
  {
  }

  /** Whoever holds the lock that a task waits for, and waits itself, ranks higher. */
  lemma BlockerOutranks(t: Task, u: Task, mix: set<Handler>)
    requires Orderly(t, mix) && Orderly(u, mix) && Peaceful(mix) && Exclusive(t.position, u.position)
    requires t.rest != [] && t.rest[0].Down? && u.rest != [] && u.rest[0].Down?
    requires Holds(u.position, t.rest[0].lock)
    ensures RankOf(t) < RankOf(u)
  {
    var s, r := t.rest[0], u.rest[0];
    assert !Clash(t.handler, u.handler) && !Clash(u.handler, t.handler);
    UsesApart(t.handler, s.chain, u.handler, r.chain);
    UsedSectional(t.handler, s.chain);
    UsedSectional(u.handler, r.chain);
    var n, m := Place(s.chain, s.lock), Place(r.chain, r.lock);
    assert r.chain == u.position.chain && m == u.position.depth;
    ExcludedBy(t.position, s.chain, n, u.position, r.chain, m);
    HolderOutranks(s.chain, n, s.lock, r.chain, m, r.lock);
  }

  lemma ExcludedBy(p: Position, c: Chain, n: nat, q: Position, d: Chain, m: nat)
    requires Exclusive(p, q) && q == Within(d, m) && (if p.Outside? then n == 0 else p == Within(c, n))
    ensures Exclude(c, n, d, m)
  {
    NotBoth(p, c, n, q, d, m, RoomRouters);
    NotBoth(p, c, n, q, d, m, Routers2Workers);
  }

  lemma NotBoth(p: Position, c: Chain, n: nat, q: Position, d: Chain, m: nat, l: Lock)
    requires !(Holds(p, l) && Holds(q, l)) && q == Within(d, m) && (if p.Outside? then n == 0 else p == Within(c, n))
    ensures !(Place(c, l) < n && Place(d, l) < m)
  {
  }

  lemma NotStuck(ts: seq<Task>, mix: set<Handler>)
    requires Sound(ts, mix) && Peaceful(mix)
    ensures !Stuck(ts)
  {
    if Stuck(ts) {
      var i := HighestRank(ts, |ts|);
      assert Blocked(ts, i);
      var j :| 0 <= j < |ts| && Holds(ts[j].position, ts[i].rest[0].lock);
      assert Orderly(ts[i], mix) && Orderly(ts[j], mix);
      assert ts[j].rest != [];
      assert Blocked(ts, j);
      assert j != i;
      ExclusiveOf(ts, mix, i, j);
      BlockerOutranks(ts[i], ts[j], mix);
      assert false;
    }
  }

  lemma ExclusiveOf(ts: seq<Task>, mix: set<Handler>, i: nat, j: nat)
    requires Sound(ts, mix) && i < |ts| && j < |ts| && i != j
    ensures Exclusive(ts[i].position, ts[j].position)
  {
    if i < j {
      assert Exclusive(ts[i].position, ts[j].position);
    } else {
      assert Exclusive(ts[j].position, ts[i].position);
    }
  }

  /** Any number of tasks of handlers that do not clash can always finish. */
  lemma PeacefulIsDeadlockFree(mix: set<Handler>)
    requires Peaceful(mix)
    ensures DeadlockFree(mix)
  {
    forall trace | Run(trace, mix) ensures !Stuck(trace[|trace| - 1]) {
      RunSound(trace, mix, |trace| - 1);
      NotStuck(trace[|trace| - 1], mix);
    }
  }
}

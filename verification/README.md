# A model of the media signaling layer

This project models how a pool of media servers (Rust) and the signaling server that drives them
(TypeScript) keep their state, and proves properties of that state over all inputs, all runs and all
reachable states. Objects of the media library (routers, transports, producers, consumers) are fresh
ids; the answers of the library are parameters.

`dafny verify dfyconfig.toml` checks everything.

## How it is organised

| files | what they model |
|---|---|
| `Sfu`, `Rooms`, `MediaServer` | the tables of one media server that the room and relay handlers change: the handlers as methods of a class over the tables, their effect as functions on values, and what those functions keep |
| `Handshake`, `HandshakeEffects`, `HandshakeInvariant`, `HandshakeSteps`, `HandshakeRouting` | the pipe-relay handshake between ingress servers, signaling server and egress servers as message steps over first-in first-out links, what single steps do, and the invariant of every run |
| `HandshakeDiscipline`, `HandshakeAgreement`, `HandshakeCondition` | agreement of both ends and at most one connection of each pipe, in runs whose requests name their own room, for every room that is never dropped with nobody told |
| `JointRuns`, `JointEffects`, `JointOrders`, `JointLosses`, `JointSessions` | clients, signaling server and media servers as one machine, in which every message of the signaling server is what it sends in its state, with any leaves and with closes of media servers: what its orders are, that they can always be given, which rooms are dropped untold, and what clients that join from no room can rely on |
| `JointScene`, `JointWitnesses`, `JointDrops`, `JointCondition` | runs in which a pipe is connected twice; the exact conditions on switches, leaves, closes and producer requests under which that cannot happen |
| `RelayProducers` | piping a producer to the routers of a room |
| `Ledger`, `LedgerRequests`, `LedgerServer` | who produces and consumes what on an egress server |
| `Codec`, `WriteQueue` | the length-prefixed framing, the cancellable write queue, and the two together |
| `Movement`, `MovementPackets`, `PacketBytes`, `Unpacker` | the binary movement protocol from the calls of an interval to the receiver, the packet byte by byte, and the unpacker of many packets |
| `RoundRobin` | the router selection with its wrapping index, and the worker loads |
| `Locks`, `LockPrograms`, `LockNeeds`, `LockClashes` | the lock sections of the handlers, what each handler does with the locks on every path, and which handlers can block one another for good |
| `Signaling`, `PeerManager`, `Counters`, `MeshRuns`, `MessageRuns`, `MovementRuns`, `CounterRuns`, `SpectatorRuns`, `SignalingRuns`, `RoomTables` | peers, rooms and counters of the signaling server, the shared room objects, runs of any operations, and runs of clients that keep to the documented order |
| `ServerClose`, `SignalRouter`, `ServerRuns` | registration and choice of media servers, what the close of a server's connection leaves behind, and runs of all that together with the peers' operations |

Where the source changes state step by step, a class or method does the same and its contract ties the
new state to a function; the properties are then proved about that function. Five terms recur:

* a run of the handshake is *disciplined* if each producer request names the room in which the peer's
  ingress transport was made. `JointCondition.SafeIffOwnRooms` says what this is enough for: together
  with no drop of a room that such requests name, it is exactly what makes pipes safe;
* a room is *dropped untold* if it goes from `rooms` and the servers listed for it are not told to destroy
  it (`Handshake.DropRooms`);
* a run of the signaling server is *in the documented order* if clients join, make one ingress
  transport, then one send transport, then ask for the room's movement, and leave the room they are in,
  with no spectators, no failed server selection, and no teardown while somebody is between a join and
  an ingress transport;
* a run of any operations is *orderly* (`MovementRuns.Orderly`) if peers join from no room, movement is
  announced by egress servers that the peer's room lists, a leave that closes its room leaves nobody in
  it, and the rooms of a closing server hold only its own peers;
* locks are taken in *sections*: nested chains, which a handler may go through in any order.

## What the proofs turned up

* The connected flag of a pipe is set on a copy (`rust/src/models/sfu.rs:201-204`), so it is never true;
  `Sfu.PipesOk` has that as part of the invariant. Pipes are connected once all the same, as long as
  requests name their own room and that room is not dropped untold.
* A peer that joins a room from within a room - another one, or the same one again if it is given another
  ingress server - keeps the transport it had, for no goodbye goes to that server. Its producer requests
  then name a room that its transport is not in, and a pipe may be connected twice, the second time to a
  pipe that the other side never connected (`JointWitnesses.SwitchIsUnsafe`).
* A leave that names a room other than the peer's own deletes that room from `rooms` and sends the order
  to destroy to the servers of the peer's own, if it is in any
  (`frame/libs/peerConnectionManager.ts:644-658`). The servers of the deleted room hear nothing; once the
  room is made anew, without the ingress server of a peer that is still in it, a pipe can be connected
  twice although nobody switched rooms and every request names its own (`JointDrops.LeaveIsUnsafe`). When
  such a leave keeps the counters right is in `Counters.LeaveCountsIff`.
* The close of a media server drops the rooms that still name it and their routes
  (`frame/libs/peerConnectionManager.ts:1010-1017`, `frame/libs/signalRouter.ts:200-211`), and the other
  servers of these rooms hear nothing, with the same effect (`JointDrops.CloseIsUnsafe`).
* These three are all: without them no pipe is connected twice, in any run of clients and servers
  (`JointCondition.SafeIff`).
* When an egress router closes, its callback deletes relays by the id of the egress router, while relays
  are stored under the ingress router (`rust/src/handlers/relay_egress.rs:88-98`), so none is found: the
  relay outlives its pipe and keeps the server from answering again (`Rooms.RelayOutlivesRouter`).
* Room teardown forgets one ingress router for each router of the room; others relayed onto the same
  router stay in `relayRouters` (`Rooms.TeardownForgetsRelayRouters`).
* A consume request that fails in the middle leaves records that are never announced (`Ledger.LeftBehind`);
  movement is not guarded against being consumed twice (`Ledger.MovementOnceIff`).
* A data producer of an unknown label is refused only after it was piped to the room.
* Closing a producer takes it out of the video list only and never out of `producers`, so that no
  disconnect removes it (`Ledger.OrphanForGood`).
* When an egress server closes, the rooms that list it go from both tables even if peers on other servers
  stay in them; whoever of them asks for movement then leaves the lobby and gets none
  (`MovementRuns.CloseLosesMovement`).
* A pipe that is offered to an egress server after its connection closed is recorded all the same
  (`ServerRuns.TraceAgainIff`).
* The full-packet bit is added rather than set, and a header of 15 is never sent
  (`MovementPackets.ArrivesIff`).
* Room teardown and relay answers, and disconnects and requests to produce, relay or consume, take locks
  in opposite orders (`LockClashes.DeadlockFreeIff`).
* A server that registers in a second region is listed in one of them after its close
  (`ServerRuns.TwiceStaysListed`).
* Leaving closes a room over its spectators (`Counters.StrandedIff`), and when a count of spectators goes
  wrong is in `SpectatorRuns.OperationSeesIff`; a disconnect, and with it the close
  of a server, throws for a room that has lost its counter (`Counters.DisconnectThrowsIff`,
  `ServerClose.CloseLeavesNoTraceIff`).
* `getIngress` and `getEgress` read from an undefined entry when a region's load table is empty
  (`ServerClose.ChoiceIs`).

## Model

| member | source | states |
|---|---|---|
| `HandshakeAgreements.HandshakeAgreement` | rust/src/handlers/relay_connect.rs:22-69 | In every state of every disciplined run, with any leaves, closes and drops of rooms in it: if an ingress server connected a pipe to remote pipe `u`, for a room that was never dropped untold, the egress server that made `u` connected `u` to that very pipe, so that both ends match. |
| `HandshakeAgreements.ConnectAtMostOnce` | rust/src/handlers/relay_connect.rs:40-63 | In every state of every disciplined run, over teardown and re-creation of rooms with messages in flight, no pipe transport on either side was connected twice, although the connected flag never rises; except perhaps ingress pipes of rooms that were dropped untold. |
| `JointCondition.SafeIff` | frame/libs/peerConnectionManager.ts:437-658 | The exact condition on switches, leaves and closes, over all runs of clients, signaling server and media servers together. Given are the switches (room that the peer is in, room that it joins from there) that clients may make, the leaves (room that the peer is in or none, room that it names) that they may make besides leaving their own rooms, and the roles of servers that may close while a room still names them once their own peers are gone. All runs connect each pipe transport at most once if and only if there are no switches, every leave names the peer's own room, and there are no such closes; and all runs have matching ends if and only if the same holds. |
| `HandshakeCondition.ObedientIsSafe` | rust/src/handlers/relay_connect.rs:22-69 | In every state of a run in which requests name their own room only, with any contents otherwise, no pipe of a room that was never dropped untold was connected twice and its ends match; and this holds of all pipes if no room that requests name was dropped untold. |
| `JointDrops.LeaveIsUnsafe` | frame/libs/peerConnectionManager.ts:644-658 | Whatever room a peer is in, or none, and whatever other room it may name when it leaves: there is a run without switches in which each producer request names the peer's own room, and that leave makes an ingress server connect a pipe twice, the second time to a pipe that the egress server never connected. |
| `JointDrops.CloseIsUnsafe` | frame/libs/peerConnectionManager.ts:1010-1017 | So does, in such a run, the close of another server of either role that is listed for the room, though all its peers are disconnected and the rest of the handler runs without an exception. |
| `JointCondition.SafeIffOwnRooms` | frame/libs/peerConnectionManager.ts:1026-1044 | The exact condition on producer requests and drops: for every set of pairs (room of the peer's transport, room its producer request names) that requests may use and every set of rooms that may be dropped untold, all runs connect each pipe at most once, and all runs have matching ends, if and only if every pair names the same room twice and none of these rooms may be dropped. This holds both where requests have any contents and where they come from clients by way of the signaling server. |
| `JointWitnesses.SwitchIsUnsafe` | frame/libs/peerConnectionManager.ts:437-443 | For any two different rooms `home` and `other`: if clients may go from `home` to `other`, or from `home` to `home`, without leaving, a run of clients and servers makes an ingress server connect the pipe it offered for `home` a second time, to a pipe that the egress server never connected. The run keeps to what the signaling server sends: the pipes of a transport are those that the room lists, servers are joined in pairs, and producer requests name the room in which the peer is. |
| `JointCondition.JointIsWide` | frame/libs/peerConnectionManager.ts:761-778 | The network of every joint run is the network of a run in which requests have any contents, under the same restriction on what they name. |
| `JointSessions.OutsidersAreSafe` | rust/src/handlers/relay_connect.rs:22-69 | In every state of every joint run in which peers join from no room only, whatever rooms they leave and whichever servers close, no pipe of a room that was never dropped untold was connected twice and both ends of each ingress pipe match. |
| `JointSessions.OutsidersAreDisciplined` | frame/libs/peerConnectionManager.ts:1026-1044 | In such a run every producer request that is handled, however late, names the room of the transport that the peer has on that server then. |
| `JointSessions.OutsidersReachRooms` | rust/src/handlers/relay_producer.rs:61-113 | In such a run every relay request on the way to an egress server that has the relay and the room will reach exactly the room's routers. |
| `JointSessions.MoveSessions` | frame/libs/peerConnectionManager.ts:563-583 | Every move, any leave and the close of any server included, keeps this while clients join from no room: two requests of a peer on one link with no goodbye in between name one room, and a request with no goodbye after it is for the room and the server that the peer has now. |
| `JointSessions.CloseSessions` | frame/libs/peerConnectionManager.ts:999-1008 | The close of a server keeps it: each peer of the server is said goodbye to on its ingress server, up to an exception. |
| `JointLosses.LostIff` | frame/libs/peerConnectionManager.ts:644-658 | In every state of every joint run the rooms that were dropped untold are exactly those that a peer asked to leave from elsewhere, when that left neither participants nor anybody in the lobby to the room's counter, and those that still named a closing server when its peers were gone. |
| `JointLosses.MoveLoses` | frame/libs/peerConnectionManager.ts:1010-1017 | Each single move drops exactly these rooms untold and no others. |
| `JointOrders.RequestsAreServed` | frame/libs/signalRouter.ts:924-962 | In every state of every joint run all orders of every request can be given, whoever makes it and whatever room it names: servers are only told what their role has a message for, and no route is swept of a room that is still in `rooms`. So joint runs leave out no request. |
| `JointRuns.JointKeeps` | rust/src/handlers/media_relay.rs:34-123 | The invariant of the network holds in every state of every joint run: among other things every server that was told to create a room, and not to destroy it since, is listed for it, unless that room was once dropped untold. |
| `JointRuns.AlwaysCoupled` | frame/libs/peerConnectionManager.ts:551-554 | In every state of every joint run, after any leaves and closes, the servers to which the network lists each room and route are those in the signaling server's `rooms` and routing table, ingress and egress together. |
| `JointOrders.AlwaysRoled` | frame/libs/peerConnectionManager.ts:508-522 | In every state of every joint run the signaling server has only ingress servers as ingress and only egress servers as egress, in rooms, routes and peers. |
| `JointOrders.JoinsMatch` | frame/libs/peerConnectionManager.ts:451-546 | When a peer joins, a media server is ordered to join the room exactly as often as there are peers that are due a join for it, and once more as the ingress server. |
| `JointEffects.IngressAsks` | frame/libs/peerConnectionManager.ts:744-798 | The peer's ingress server, and nobody else, is asked for one transport in the peer's room, with offers for exactly the egress servers that the route of the room has; without room or server nothing is sent. |
| `JointEffects.ProduceAsks` | frame/libs/peerConnectionManager.ts:1026-1044 | A producer request goes to the peer's ingress server and names its room and its egress server, if it has all three. |
| `JointEffects.LeaveSaysGoodbye` | frame/libs/peerConnectionManager.ts:563-594 | Each server is sent as many goodbyes by a leave as it is the peer's ingress server and an egress server of the room named, and no more. |
| `JointEffects.GoneSaysGoodbye` | frame/libs/peerConnectionManager.ts:1605-1655 | The same of a disconnect, with the peer's own room. |
| `JointEffects.LeaveEnds` | frame/libs/peerConnectionManager.ts:617-658 | A leave ends the room it names if and only if that is the peer's own and its counter has no other participant and nobody else in the lobby; another room it drops under the same condition, and has the peer's own destroyed then. |
| `JointEffects.GoneEnds` | frame/libs/peerConnectionManager.ts:1687-1721 | A disconnect ends the peer's room if and only if the room is there with a counter and nobody else is in it. |
| `JointEffects.RoomsGoTogether` | frame/libs/peerConnectionManager.ts:644-658 | A room goes from `rooms` by a leave or a disconnect if and only if an order of that very request ends or drops it. |
| `JointCondition.NamingIsUnsafe` | rust/src/handlers/relay_egress.rs:37-176 | Whatever requests may name and rooms may be dropped untold against that condition, there is a joint run with such requests and drops only in which a pipe is connected twice and ends do not match. |
| `HandshakeAgreements.EndsWereMadeForEachOther` | rust/src/handlers/relay_egress.rs:90-176 | In every run, disciplined or not: a pipe is only ever connected to a pipe that was made for the same ingress router and the same egress server. |
| `HandshakeAgreements.AnswersReachTheOwner` | frame/libs/signalRouter.ts:316-345 | In every run: a `connectPipeRelay` is only ever delivered to the ingress server on which its router was created. |
| `HandshakeRouting.RunKeeps` | rust/src/handlers/media_relay.rs:34-123 | The invariant of the whole network - tables, links, pipe records, where each router lives, what each message refers to - holds in every state of every run. |
| `HandshakeRouting.StepKeeps` | frame/libs/signalRouter.ts:285-363 | Every single action of any party keeps the network invariant and only extends links and history. |
| `HandshakeSteps.ServeKeeps` | rust/src/server/message_handle.rs:699-805 | Whatever message a media server handles next, the invariant of the network is kept. |
| `HandshakeRouting.ForwardKeeps` | frame/libs/signalRouter.ts:294-354 | Routing a media server's message (`storePipeRelay`, `createRelayProducer`, `connectPipeRelay`) keeps the invariant. |
| `HandshakeEffects.ForwardsDown` | frame/libs/signalRouter.ts:294-355 | An offer is recorded as a pipe from the server that sent it and goes to the egress server that it names and to nobody else, and so does a request for a producer, which records nothing; a name that is no egress server gets nothing. |
| `HandshakeEffects.ForwardsBack` | frame/libs/signalRouter.ts:316-345 | An answer goes to the ingress server of the first pipe recorded from its router to the server it came from and to nobody else; without such a pipe nobody gets it. |
| `HandshakeEffects.ProducerAsks` | rust/src/handlers/relay_consumer.rs:41-129 | A producer is relayed exactly if the first relay of the peer's router to its egress server has a pipe; then one request goes out, with the room that was named and that router, and no table changes. |
| `HandshakeEffects.NothingToAsk` | rust/src/handlers/relay_consumer.rs:41-58 | Without a router of the peer, or without a relay of that router to the egress server, nothing is sent and nothing changes. |
| `HandshakeEffects.RelayAnswers` | rust/src/handlers/relay_egress.rs:107-166 | An egress server answers with one message, which has the router that it selected and the new pipe, and connects that pipe exactly if the offer for the ingress router is there. |
| `HandshakeEffects.IngressOffers` | rust/src/handlers/ingress.rs:30-146 | A client's transport is remembered with the router that was selected, and one offer is sent for each new pipe, from that router; without a router only the selection is counted, and without a room nothing. |
| `HandshakeEffects.DestroyTells` | frame/libs/signalRouter.ts:884-913 | An order to destroy a room goes once to each server that the routing table has for it, and to no other. |
| `HandshakeRouting.CloseKeeps` | frame/libs/signalRouter.ts:884-913 | An order to destroy a room, sent to every server in the routing table, keeps the invariant, whether the room is dropped from `rooms` with it or stays there. |
| `HandshakeRouting.DropKeeps` | frame/libs/signalRouter.ts:193-211 | So do drops that nobody is told of: of rooms, of the pipe records of a server, and of routes. |
| `HandshakeRouting.JoinKeeps` | frame/libs/signalRouter.ts:451-480 | Joining a room on a server keeps the invariant: a server told to create a room, and not told since to destroy it, is listed for that room. |
| `HandshakeAgreements.RunTidy` | frame/libs/signalRouter.ts:894-904 | In every state of a disciplined run, whatever an egress server has forgotten about a router is already ordered to be forgotten by the router's own ingress server, or its room was once dropped untold. |
| `HandshakeAgreements.ServeTidy` | rust/src/server/message_handle.rs:426-511 | Handling any message keeps that one-sided forgetting: an egress server never answers a second time for a router that is still alive. |
| `HandshakeAgreements.CloseTidy` | frame/libs/signalRouter.ts:894-904 | Closing a room keeps it, because the order to the ingress server is on its link before any late answer can be. |
| `HandshakeAgreements.DropTidy` | frame/libs/peerConnectionManager.ts:1012-1017 | Drops that nobody is told of keep it. |
| `HandshakeAgreements.ForwardTidy` | frame/libs/signalRouter.ts:316-345 | An answer that is forwarded is either the only one for its router and connected, or arrives behind the order to destroy the router's room. |
| `MediaServers.MediaServer.CreateRouterGroup` | rust/src/handlers/router.rs:24-79 | Creates one router per worker in a loop, entering each in three tables, unless the room has a group; the new state is that of the specification function `CreateGroup`. |
| `MediaServers.MediaServer.GetLessLoadedRouter` | rust/src/utils/worker_load.rs:17-42 | Hands out the router at the running index modulo the group, advances the wrapping index and counts the load of the router's worker. |
| `MediaServers.MediaServer.CreateIngressRelay` | rust/src/handlers/media_relay.rs:34-123 | Offers one new pipe to each egress server asked for that has none from this router; relays, pipes and offers are those of `OfferAll`, which `Rooms.OfferAllRecords` and `Rooms.OfferAllOnce` characterise. |
| `MediaServers.MediaServer.StorePipeRelay` | rust/src/handlers/pendingrelays.rs:8-20 | Stores the offered transport under the ingress router and changes nothing else. |
| `MediaServers.MediaServer.CreateEgressRelay` | rust/src/handlers/relay_egress.rs:37-176 | Keeps an existing relay; otherwise picks a router, records relay, pipe and relay router, and returns the pending offer it connects to, or refuses. |
| `MediaServers.MediaServer.ConnectPipeRelay` | rust/src/handlers/relay_connect.rs:22-69 | Finds the pipe of the first relay from the router to the egress server; the tables do not change, since the flag is set on a copy. |
| `MediaServers.MediaServer.DestroyRouterGroup` | rust/src/server/message_handle.rs:426-511 | The loops over the room's routers and the deep clean amount to `Teardown` of the room, with exactly one ingress router forgotten for each router that had any. |
| `MediaServers.MediaServer.DropFromGroup` | rust/src/server/message_handle.rs:442-483 | What one turn of the teardown loop removes: the router, what one ingress router relayed onto it left, its own relays and the first pipe of each. |
| `MediaServers.MediaServer.CleanRoom` | rust/src/server/message_handle.rs:484-505 | The deep clean removes every pipe of the room by transport and every relay of the room by router. |
| `Rooms.OfferAllRecords` | rust/src/handlers/media_relay.rs:34-123 | The relays grow by exactly the offers made, each with a relay and an unconnected pipe of that room, and every egress server asked for ends up with a relay from this router. |
| `Rooms.OfferAllOnce` | rust/src/handlers/media_relay.rs:38-42 | Offers go only to servers that had no relay from this router, to each of them once, with consecutive new transports. |
| `Rooms.OfferedIff` | rust/src/handlers/media_relay.rs:34-123 | An egress server is sent an offer if and only if it was asked for and had no relay from this router. |
| `Rooms.AnswerIs` | rust/src/handlers/relay_egress.rs:36-176 | The exact answer in any state: nothing if a relay of the ingress router is there; else the selection is counted, and if the selected router is there one pipe and one relay of the ingress router are added at the end, and the ingress router is noted for the selected one. |
| `Rooms.ConnectIs` | rust/src/handlers/relay_connect.rs:22-69 | What is connected is the pipe of the first relay of that router to that server, unless it is connected already. |
| `Rooms.CreateGroupIs` | rust/src/handlers/router.rs:24-79 | A room without routers gets one on each worker, in the order of the workers; a room with routers, and all others, stay as they are. |
| `Rooms.RouterClosedIs` | rust/src/handlers/relay_egress.rs:90-101 | The callback takes away exactly the pipe it was left for and the relays under the id of the closed router. |
| `Rooms.RelayOutlivesRouter` | rust/src/handlers/relay_egress.rs:90-130 | So the relay that was answered with outlives the router and its pipe, and keeps the server from answering for that ingress router again. |
| `Rooms.OfferAllKeeps` | rust/src/handlers/media_relay.rs:34-123 | Offering keeps the agreement of rooms, routers, workers, relays and pipes. |
| `Rooms.AnswerKeeps` | rust/src/handlers/relay_egress.rs:37-176 | Answering keeps it; in particular relays with the same router id share one room. |
| `Rooms.CreateGroupKeeps` | rust/src/handlers/router.rs:24-79 | Creating a group keeps it: rooms own disjoint groups of registered routers, each on a worker. |
| `Rooms.SelectKeeps` | rust/src/utils/worker_load.rs:17-42 | A selection keeps it, and succeeds exactly if the room has a group. |
| `Rooms.RouterClosedKeeps` | rust/src/handlers/relay_egress.rs:88-101 | The callback on the close of the egress router keeps it, although it deletes relays by the id of the egress router. |
| `Rooms.TeardownKeeps` | rust/src/server/message_handle.rs:426-511 | Teardown keeps it. |
| `Rooms.TeardownComplete` | rust/src/server/message_handle.rs:426-511 | After the teardown of a room no relay and no pipe carries it, and none of its routers is registered, on a worker or in any room. |
| `Rooms.TeardownIsolated` | rust/src/server/message_handle.rs:426-511 | Every other room keeps its group, its routers and their workers, its relays and its pipes in order, and its relay routers with their pending offers. |
| `Rooms.TeardownForgetsRelayRouters` | rust/src/models/sfu.rs:297-308 | Teardown leaves no relay router pointing into the room if and only if no two ingress routers had been relayed onto the same router: `get_by_egress` finds one of them only. |
| `Rooms.DropEnd` | rust/src/server/message_handle.rs:484-509 | Once every router of the room is dropped, the deep clean makes the deletions by router id and by transport id the same as deletion by room. |
| `RelayProducers.PipeToRoom` | rust/src/handlers/relay_producer.rs:61-113 | Pipes to the routers of the room other than the source, in order, up to the first that is missing or fails, and succeeds exactly if it reaches all. |
| `RelayProducers.RelayMediaProducer` | rust/src/handlers/relay_producer.rs:24-178 | Succeeds exactly if the relay has a pipe, producing on it succeeds and no router of the room fails, and has then piped to all of them. |
| `RelayProducers.RelayDataProducer` | rust/src/handlers/data_relay_producer.rs:25-191 | The same for data, refused outright once the peer has an event producer and, for an unknown label, refused only after piping to the whole room. |
| `RelayProducers.WholeRoomIff` | rust/src/handlers/relay_producer.rs:61-113 | On a live room the routers that carry the producer in the end are exactly the room's routers if and only if the relay that is used was made for that room. |
| `RelayProducers.SourceAndTargets` | rust/src/handlers/relay_producer.rs:41-113 | The producer is made on the pipe of the first relay of its ingress router, and piped to the room's routers in order without the one that this pipe is on. |
| `RelayProducers.FirstRequestReachesRoom` | rust/src/handlers/relay_egress.rs:39-105 | The request that makes the relay reaches the whole room. |
| `RelayProducers.MediaReachesRoom` | rust/src/handlers/relay_producer.rs:61-113 | In every state of every disciplined run of the handshake, every relay request on the way to an egress server that has the relay and the room will reach exactly the room's routers. |
| `LedgerServer.ConsumeMedia` | rust/src/handlers/audio_consumer.rs:41-152 | The nested loops over peers and their producers compute `AfterPeers`; a failure keeps what was recorded and announces nothing, success announces the new records by peer. |
| `LedgerServer.PeerLedger.ConsumeAudio` | rust/src/handlers/audio_consumer.rs:27-154 | A request for audio changes the audio records and the consumers as computed, and nothing else. |
| `LedgerServer.PeerLedger.ConsumeVideo` | rust/src/handlers/video_consumer.rs:26-149 | The same for video. |
| `LedgerServer.ConsumeData` | rust/src/handlers/movement_consumer.rs:32-100 | The loop over peers for movement, with no check for what was consumed before. |
| `LedgerServer.PeerLedger.ConsumeMovement` | rust/src/handlers/movement_consumer.rs:21-113 | A request for movement changes the movement records and the data consumers as computed, and nothing else. |
| `LedgerServer.PeerLedger.ConsumeEvents` | rust/src/handlers/event_consumer.rs:21-112 | A request for events changes the event records and the data consumers in the same way. |
| `LedgerServer.PeerLedger.CloseProducer` | rust/src/server/message_handle.rs:618-634 | Whatever the media type, the id is looked for among the peer's video producers only, and stays in `producers`. |
| `LedgerServer.PeerLedger.Produce` | rust/src/handlers/relay_producer.rs:114-178 | A relayed producer is listed for its peer and entered among the producers. |
| `LedgerServer.PeerLedger.ProduceData` | rust/src/handlers/data_relay_producer.rs:25-191 | A relayed data producer is entered by its label, unless the peer has an event producer. |
| `LedgerServer.PeerLedger.Open` | rust/src/handlers/egress.rs:83-119 | A new transport is entered for its peer, with its router and its endpoint. |
| `LedgerServer.PeerLedger.Closed` | rust/src/handlers/egress.rs:88-102 | The close of a transport takes its router and endpoint out. |
| `LedgerServer.PeerLedger.DisconnectTransport` | rust/src/server/message_handle.rs:331-425 | The sequence of removals for a peer amounts to `Disconnected`. |
| `LedgerServer.DropRecords` | rust/src/server/message_handle.rs:369-403 | The consumers that a peer's records name go one by one, then its records; everything else stays in order. |
| `Ledger.ContinuesPeers` | rust/src/handlers/audio_consumer.rs:41-152 | What a request records is new, belongs to the consumer, can be consumed by its router, has ids of its own and is exactly what is announced, in the same order. |
| `Ledger.OnceStays` | rust/src/models/sfu.rs:509-522 | No (consumer peer, producer) pair is ever recorded twice, whatever peers are asked for, repeated or not. |
| `Ledger.PeersGrow` | rust/src/handlers/video_consumer.rs:40-147 | When a request succeeds, every consumable producer of the peers asked for is recorded, now or before. |
| `Ledger.LeftBehind` | rust/src/handlers/audio_consumer.rs:125-152 | What a failed request recorded is never announced by a later one, however often the client asks. |
| `Ledger.MovementOnceIff` | rust/src/handlers/movement_consumer.rs:32-100 | A request for movement keeps the pairs distinct if and only if the producers it comes to, as far as the first failure, are distinct and the consumer had none of them before. |
| `Ledger.MovementTwice` | rust/src/handlers/movement_consumer.rs:62-100 | A concrete request with a repeated peer consumes twice and announces one consumer only. |
| `LedgerRequests.HoldsIff` | rust/src/models/sfu.rs:368-437 | In every state of every run, for each kind: a producer is listed for a peer if and only if it was made as audio, video, movement or events of that peer, not refused, and not removed since - by a disconnect, by a close if it is video, or by a later one if it is movement. The same of the transports of peers and of the routers and peers of transports. |
| `LedgerRequests.HoldsAfter` | rust/src/handlers/data_relay_producer.rs:127-165 | The same for any single call on any books. |
| `LedgerRequests.MediaRequestIs` | rust/src/handlers/audio_consumer.rs:41-152 | A request for audio succeeds if and only if each audio producer of the peers asked for was consumed before, or the consumer has a transport with a router and the library does not fail; then it announces exactly those that can be consumed and were not before. The same of video. |
| `LedgerRequests.MediaRecords` | rust/src/handlers/video_consumer.rs:40-147 | A request adds to the records of its own kind and to the consumers exactly what is new, and nothing to the records of the other. |
| `LedgerRequests.AnnouncementIs` | rust/src/handlers/audio_consumer.rs:118-152 | The client is told all that is new, by producer peer and in order, and of no other peer. |
| `LedgerRequests.DataRequestIs` | rust/src/handlers/movement_consumer.rs:32-113 | A request for movement fails if and only if the consumer has a transport and the library fails for a movement producer of a peer asked for; else it announces one consumer for each of these peers; it records one for each time that a peer is asked for, in order, up to the first failure. The same of events. |
| `LedgerRequests.MovementReaches` | rust/src/handlers/data_relay_producer.rs:127-153 | A movement producer that was not refused is exactly what the next request for that peer's movement records and announces, and requests for events are answered as before it. |
| `LedgerRequests.EventsReach` | rust/src/handlers/data_relay_producer.rs:154-165 | The same of an event producer and requests for events. |
| `LedgerRequests.BlocksIff` | rust/src/handlers/data_relay_producer.rs:44-51 | A data producer keeps later ones of its peer out if and only if it is an event producer. |
| `LedgerRequests.AudioReaches` | rust/src/handlers/relay_producer.rs:114-178 | An audio producer that was not refused is announced by the next successful request for that peer's audio if and only if the consumer's router can consume it, and requests for video are answered as before it. |
| `LedgerRequests.VideoReaches` | rust/src/handlers/relay_producer.rs:114-178 | The same of a video producer. |
| `LedgerRequests.ListedIs` | rust/src/models/sfu.rs:368-437 | A producer comes last in the list of its peer, and no other list changes. |
| `LedgerRequests.UnlistedIs` | rust/src/models/sfu.rs:427-433 | A producer that is closed leaves the other ones of its peer listed in their order. |
| `Ledger.BooksBalance` | rust/src/models/sfu.rs:368-437 | In every state of every run of an egress server: the consumers are exactly those recorded, with distinct ids; no pair is recorded twice for audio or video; each listed producer exists and is listed once; endpoints and transport routers agree. |
| `Ledger.HandleKeepsBalance` | rust/src/server/message_handle.rs:331-425 | Every single call keeps the books balanced. |
| `Ledger.DisconnectForgets` | rust/src/server/message_handle.rs:331-425 | After a disconnect something still mentions the peer if and only if an endpoint names it: endpoints stay until their transports close. |
| `Ledger.CloseForgets` | rust/src/handlers/egress.rs:88-102 | Once the recorded transport has closed too, something mentions the peer if and only if it has another endpoint, as after opening two transports. |
| `Ledger.HandleOrphansIff` | rust/src/server/message_handle.rs:618-634 | A call leaves every producer in somebody's list if and only if it is not a close request that finds its producer among the peer's video producers. |
| `Ledger.ListedUntilClosed` | rust/src/models/sfu.rs:427-433 | In every state of a run without such a close the producers are exactly the ones listed. |
| `Ledger.OrphanForGood` | rust/src/server/message_handle.rs:618-634 | From such a close on its producer is in `producers` and in no list, in every later state: no disconnect removes it. |
| `Ledger.DisconnectIsolated` | rust/src/server/message_handle.rs:331-425 | Everything listed or recorded about another peer is as it was, in order. |
| `Ledger.DisconnectTakesItsOwn` | rust/src/server/message_handle.rs:331-425 | Every producer and consumer of another peer still exists. |
| `Ledger.DisconnectUnloads` | rust/src/server/message_handle.rs:399-422 | A disconnect takes one off the load of the worker that the peer's transport is on, if there is one and it has any, and nothing off others. |
| `Ledger.DisconnectTwice` | rust/src/server/message_handle.rs:331-425 | A second disconnect of the same peer changes nothing. |
| `Codec.ServerCodec.DecodeNext` | rust/src/utils/codec.rs:551-574 | The decode loop refines one call of `Decode`; it ends, and a payload that does not parse leaves buffer and size unchanged. |
| `Codec.ServerCodec.Encode` | rust/src/utils/codec.rs:579-591 | Appending and filling in the length afterwards gives the framed payload behind what was there. |
| `Codec.FrameShrinks` | rust/src/utils/codec.rs:551-574 | Each frame that comes out shrinks the decoder's measure, so draining ends. |
| `Codec.EncodedIs` | rust/src/utils/codec.rs:579-591 | A frame is four bytes and the payload, and these say the length of both together, highest byte first. |
| `Codec.DecodesIff` | rust/src/utils/codec.rs:551-574 | What any bytes decode to at the start of a frame, well formed or not: incomplete, the announced part as a frame, or malformed, and what is left in each case. |
| `Codec.DrainAppend` | rust/src/utils/codec.rs:551-574 | Draining before and after more bytes arrive yields what draining all of them yields. |
| `Codec.ChunkIndependence` | rust/src/utils/codec.rs:551-574 | For any bytes, well formed or not, and any split into chunks the same frames come out and the same state is left. |
| `Codec.FramingRoundTrip` | rust/src/utils/codec.rs:551-591 | For every list of payloads and every split of their encoding into chunks exactly the payloads come out, in order, with an empty buffer and no size. |
| `Codec.PrefixDecodes` | rust/src/utils/codec.rs:551-591 | Of a stream cut anywhere a prefix of the payloads comes out. |
| `Codec.RoundTripIff` | rust/src/utils/codec.rs:579-591 | A payload survives if and only if its length plus 4 is below 2^32. |
| `Codec.ClientRoundTripIff` | rust/src/utils/codec.rs:504-533 | The client's codec returns a payload if and only if its length is below 2^16. |
| `Codec.ClientEncodedIs` | rust/src/utils/codec.rs:524-533 | The client's frame is two bytes that say the payload's length alone, highest first and cut to 16 bits, and the payload. |
| `Codec.ClientDecodesIff` | rust/src/utils/codec.rs:504-522 | What any bytes decode to with the client's codec. |
| `Codec.MalformedSkippedOrKept` | rust/src/utils/codec.rs:504-574 | A frame that does not parse is skipped by the client's codec and kept for good by the server's. |
| `WriteQueue.QueuedWrite.TryWrite` | rust/src/server/stream.rs:161-180 | The loop refines one poll against any answers of the connection, and ends. |
| `WriteQueue.QueuedWrite.Push` | rust/src/server/stream.rs:150-152 | Appends to the queue. |
| `WriteQueue.QueuedWrite.Pop` | rust/src/server/stream.rs:154-158 | Takes the first message; never called on an empty queue, as its precondition shows. |
| `WriteQueue.PollConserves` | rust/src/server/stream.rs:161-180 | Every poll keeps: messages pushed are messages sent, then the one refused if any, then those queued, in order; and each message is flushed before the next is sent. |
| `WriteQueue.PushConserves` | rust/src/server/stream.rs:150-152 | So does every push. |
| `WriteQueue.PollAgain` | rust/src/server/stream.rs:161-180 | Dropping a waiting future and polling a new one is the same as polling the old one again. |
| `WriteQueue.RunConserves` | rust/src/server/stream.rs:149-180 | Conservation over every run of pushes and polls, until the connection breaks. |
| `WriteQueue.PollStops` | rust/src/server/stream.rs:161-180 | What a poll has done when the connection's answers stop being good: as many messages as they allow are sent, in order, the last one unflushed if their number is odd; the next answer decides the outcome, and exactly a refusal costs the next message. |
| `WriteQueue.PollFinishes` | rust/src/server/stream.rs:161-180 | With two good answers for each queued message and one for a pending flush, all that was queued is sent in order and flushed, and the poll waits. |
| `WriteQueue.PollWaitsIff` | rust/src/server/stream.rs:161-180 | A poll waits if and only if nothing is left to do or the connection has to wait, and nothing is left to do if and only if there were so many good answers. |
| `WriteQueue.AllIsSent` | rust/src/server/stream.rs:149-180 | After any run that did not break, one poll with so many good answers leaves everything that was ever pushed sent, in order, and flushed. |
| `WriteQueue.PeerDecodesPrefix` | rust/src/server/stream.rs:149-180 | Whenever the connection stops and however its bytes arrive, the peer decodes a prefix of the messages pushed. |
| `WriteQueue.PeerDecodesAllIff` | rust/src/server/stream.rs:149-180 | When all bytes of the messages that the connection took have arrived, the peer has decoded all that was pushed if and only if nothing is queued and nothing was refused. |
| `WriteQueue.PeerDecodesAll` | rust/src/server/stream.rs:149-180 | So after such a poll the peer decodes exactly what was pushed, however its bytes arrive. |
| `Movement.MovementTransport.SetMovement` | frame/webapp/core/movementProtocol.ts:152-198 | Sets the header bit and the bytes of each given field, adds the full-packet bit if a hand or the game piece is in the header, and stores the header. |
| `Movement.MovementTransport.SetInputHeaderBitIdempotently` | frame/webapp/core/movementProtocol.ts:145-150 | Sets a bit that is not set. |
| `Movement.MovementTransport.ClearBuffer` | frame/webapp/core/movementProtocol.ts:229-287 | Zeroes all 78 bytes. |
| `Movement.MovementTransport.Tick` | frame/webapp/core/movementProtocol.ts:200-219 | Emits the whole packet, the first 36 bytes or nothing, and leaves zeros and an empty header, so nothing crosses a tick. |
| `Movement.PlacesTile` | frame/webapp/core/movementProtocol.ts:53-101 | The addresses and widths of the fields tile bytes 2 to 77. |
| `MovementPackets.GroupsAre` | frame/webapp/core/movementProtocol.ts:157-166 | At the tick the lower ten header bits are exactly the groups touched in the interval. |
| `MovementPackets.MaskOfMeans` | frame/webapp/core/movementProtocol.ts:106-121 | A group's bit is set if and only if a field of that group was given. |
| `MovementPackets.TopIs` | frame/webapp/core/movementProtocol.ts:185-193 | The full-packet bit and the one above it count the calls made once a hand or game-piece position is present, modulo 4. |
| `MovementPackets.FieldIs` | frame/webapp/core/movementProtocol.ts:168-182 | Each field holds what it was last set to in the interval, or zero. |
| `MovementPackets.FullReads` | frame/webapp/core/movementProtocol.ts:322-406 | The 78 bytes read back as the last values and the groups touched, if and only if the `frequent` bit was not reached by the additions or there is no base position. |
| `MovementPackets.ShortReads` | frame/webapp/core/movementProtocol.ts:209-213 | The 36 bytes read as the 78 do if no hand or game piece is in the header, and cannot be read otherwise. |
| `MovementPackets.ArrivesIff` | frame/webapp/core/movementProtocol.ts:200-219 | An interval arrives as it was meant if and only if the base position was set and either the wide calls are 1 modulo 4 or the groups are below 15: a header of 15 is never sent. |
| `MovementPackets.AtMostOneWideCall` | frame/webapp/core/movementProtocol.ts:185-193 | With at most one such call in the interval every packet that is emitted reads back as it was meant. |
| `MovementPackets.ArrivesWithSwitchIff` | frame/webapp/core/movementProtocol.ts:203-208 | With the page's switch everything is sent, and is read as meant if and only if there is no base position or the wide calls are 0 or 1 modulo 4. |
| `PacketBytes.FieldsFollow` | frame/webapp/core/movementProtocol.ts:52-102 | The fields follow each other without a gap from behind the header to the end of the 78 bytes. |
| `PacketBytes.BitOfField` | frame/webapp/core/movementProtocol.ts:106-121 | The position and then the rotation of the five objects have one header bit each, in the order of the fields. |
| `PacketBytes.WideIff` | frame/webapp/core/movementProtocol.ts:185-193 | A call counts as wide if and only if, by then, a position of a hand or of the game piece was set in the interval. |
| `PacketBytes.EmittedIs` | frame/webapp/core/movementProtocol.ts:200-219 | What is sent, by the bytes: everything where the page asks for it or base position and full-packet bit are set; the first 36 bytes where the base position is set and the header, a signed number with the low byte first, is below 15; else nothing. |
| `PacketBytes.SizeIs` | frame/webapp/core/avatar.ts:2005-2016 | The receiver takes a packet to have 78 bytes or 36 by the same bit of the second byte. |
| `PacketBytes.ReadsBytes` | frame/webapp/core/movementProtocol.ts:322-406 | What is read from any bytes: an exception exactly where the packet ends before an object that its header announces, and else these objects, each value from its own place, rotations with their first value last. |
| `Unpacker.PackedBinaryToMap` | frame/webapp/core/avatar.ts:1986-2026 | The loop computes `Unpacked` on any bytes, with the offset strictly growing, and fails where the source throws. |
| `Unpacker.UuidInjective` | frame/webapp/core/avatar.ts:1958-1980 | Different ids have different texts. |
| `Unpacker.UuidReads` | frame/webapp/core/avatar.ts:1949-1980 | The text of an id, read as hexadecimal digits by a reader of its own, gives back the sixteen bytes in order. |
| `Unpacker.UnpackingInvertsPacking` | frame/webapp/core/avatar.ts:1986-2026 | For every list of ids and packets sized as their own header says, unpacking the concatenation gives the last packet for each id. |
| `Unpacker.LastPacketOf` | frame/webapp/core/avatar.ts:2018-2020 | The packet kept for an id is that of its last entry. |
| `Unpacker.LeftOver` | frame/webapp/core/avatar.ts:1990-2017 | Bytes left over lose everything if fewer than an id and a header; a packet cut off later is stored as it is. |
| `RoundRobin.SelectionsAre` | rust/src/utils/worker_load.rs:17-42 | The j-th of consecutive selections for a room is the router at (index + j) modulo 2^64, modulo the group. |
| `RoundRobin.FairWindow` | rust/src/utils/worker_load.rs:17-29 | In a window in which the index does not wrap, or if the group size divides 2^64, picks differ by at most one. |
| `RoundRobin.FairAlwaysIff` | rust/src/utils/worker_load.rs:17-29 | Every window is fair, wherever the index stands, if and only if the group size divides 2^64. |
| `RoundRobin.UnevenWrap` | rust/src/utils/worker_load.rs:17-29 | For every other group size a window across the wrap picks the first router twice and the last not at all. |
| `RoundRobin.FairSelections` | rust/src/utils/worker_load.rs:17-42 | The same for the routers that are handed out. |
| `RoundRobin.LoadIs` | rust/src/models/sfu.rs:720-747 | A worker's load after any history is how far adds minus removes stand above their lowest. |
| `RoundRobin.LoadCountsIff` | rust/src/models/sfu.rs:720-747 | It equals adds minus removes if and only if no prefix has more removes than adds. |
| `RoundRobin.SelectionsLoad` | rust/src/utils/worker_load.rs:30-42 | Selections in a row for a room add to each worker's load exactly the number of routers handed out that are on it. |
| `RoundRobin.TeardownLoads` | rust/src/server/message_handle.rs:475-483 | A teardown takes one off a worker's load for each of the room's routers on it, and never more than there is. |
| `LockClashes.DeadlockFreeIff` | rust/src/server/message_handle.rs:331-441 | For every set of the twenty-two handlers: any number of tasks that run the handlers' programs, on any paths, can always go on if and only if the set holds none of the clashing pairs (room teardown with relay answers; disconnect with relay producers, with media, movement or event producers of an ingress server, and with audio, video, movement or event requests); and the same holds of all tasks that keep to the sections. |
| `Locks.PeacefulIsDeadlockFree` | rust/src/handlers/router.rs:24-57 | Without a clashing pair no reachable state is stuck; in particular creating groups, ingress and egress transports, selecting routers and destroying rooms, with the lock on the rooms as the gate. |
| `Locks.HolderOutranks` | rust/src/server/message_handle.rs:430-441 | Whoever holds the lock that a task waits for, and waits itself, ranks higher, unless the two share a gate lock that they cannot both hold. |
| `Locks.RunSound` | rust/src/utils/worker_load.rs:17-34 | In every reachable state no two tasks hold one lock, and each is where its sections allow. |
| `Locks.NotStuck` | rust/src/server/message_handle.rs:430-441 | From any such state somebody can go on. |
| `LockPrograms.ProgramProper` | rust/src/server/message_handle.rs:331-511 | Each of the twenty-two handlers takes and gives back its locks as its sections say, on every path: any number of workers, servers, peers and producers, any branch, and any failure in between. |
| `LockPrograms.SetupReach` | rust/src/handlers/relay_egress.rs:37-125 | Among them creating transports, with the loop of offers and the routers held throughout on the egress side, and answering and producing for a relay. |
| `LockPrograms.ConsumesReach` | rust/src/handlers/audio_consumer.rs:41-152 | And the nested loops of a request for audio or video. |
| `LockPrograms.OutReach` | rust/src/handlers/media_producer.rs:73-152 | Producing on an ingress server: the lists and the producers stay locked while the relay looks for router and relay and enters its consumer; and the callback of a producer that closes. |
| `LockNeeds.TakesWhatItNeeds` | rust/src/server/message_handle.rs:331-511 | On every path each of the twenty-two handlers takes exactly the locks that are listed for it by what it finds on the way, and no more of them if it stops early. |
| `LockClashes.DestroyClash` | rust/src/handlers/relay_egress.rs:104-125 | There is a run of the two programs in which a room's teardown holds the relays and waits for the relay routers while a relay answer holds the relay routers and waits for the relays. |
| `LockClashes.LeaveClash` | rust/src/server/message_handle.rs:334-340 | There is a run of the two programs in which a disconnect and a handler that takes two of its books the other way round wait for each other. |
| `PeerManager.PeerConnectionManager.JoinRoom` | frame/libs/peerConnectionManager.ts:437-556 | The loops over the room's egress servers and over all peers amount to `JoinRoom`, also where no server can be selected. |
| `PeerManager.PeerConnectionManager.LeaveRoom` | frame/libs/peerConnectionManager.ts:563-670 | Leaves the peer as it was where room or counter is missing; otherwise counts down, closes the room when participants and lobby are 0 and resets the peer. |
| `PeerManager.PeerConnectionManager.CreateIngress` | frame/libs/peerConnectionManager.ts:744-798 | Counts the peer in its room, making the counter if need be. |
| `PeerManager.PeerConnectionManager.ConnectSend` | frame/libs/peerConnectionManager.ts:858-903 | Counts a participant; throws after marking the peer where the room has no counter. |
| `PeerManager.PeerConnectionManager.ConsumeAllMovement` | frame/libs/peerConnectionManager.ts:1240-1289 | Leaves the lobby and asks every routed egress server for everyone else in the room. |
| `PeerManager.PeerConnectionManager.Announce` | frame/libs/peerConnectionManager.ts:932-993 | Asks the announcing server on behalf of everyone else in the room who is not in the lobby. |
| `PeerManager.PeerConnectionManager.GetPeerCount` | frame/libs/peerConnectionManager.ts:673-706 | Gives each room asked for a counter if it has none. |
| `PeerManager.PeerConnectionManager.Disconnect` | frame/libs/peerConnectionManager.ts:1605-1725 | Removes the peer and counts it out, or deletes the room with the last peer; throws where the room has no counter. |
| `PeerManager.PeerConnectionManager.DropRoute` | frame/libs/peerConnectionManager.ts:999-1018 | Disconnects the peers of a server in the manager's order, up to an exception, then drops the rooms that name it. |
| `MessageRuns.ToldIff` | frame/libs/peerConnectionManager.ts:451-546 | In every state of every run of any operations, a peer has been sent joins for exactly the egress servers that were due since it last joined or left: those that its room listed when it joined, its own, and each new one that another peer brought to the room that it was in, unless it is on that server itself. |
| `MessageRuns.ToldWasListed` | frame/libs/peerConnectionManager.ts:527-540 | So a peer was sent joins only for egress servers that its own room listed, while it was in that room. |
| `MessageRuns.JoinTells` | frame/libs/peerConnectionManager.ts:451-546 | The same for one join on any state, peer by peer. |
| `MessageRuns.JoinPlaces` | frame/libs/peerConnectionManager.ts:437-512 | A join puts the peer into the room, on its servers if both could be had, and changes nothing else of any peer but the joins it was sent. |
| `MessageRuns.JoinLists` | frame/libs/peerConnectionManager.ts:514-554 | Both tables get the room with the servers of the join at the end of its lists, unless they are in there, and keep all other rooms. |
| `MessageRuns.AskedIff` | frame/libs/peerConnectionManager.ts:932-1289 | In every state of every run, a peer has been requested for exactly the movement that was due since it last left a room: of another peer of its room, announced while it was in that room and out of the lobby, or by an egress server that the route listed when it asked for all. |
| `MessageRuns.AnnounceAsks` | frame/libs/peerConnectionManager.ts:932-993 | The same for one announcement on any state; nothing but peers changes. |
| `MessageRuns.AnnounceNotes` | frame/libs/peerConnectionManager.ts:932-993 | An announcement is noted for the peer that it is about, and changes nothing of any peer but that and the requests. |
| `MessageRuns.PullAsks` | frame/libs/peerConnectionManager.ts:1240-1289 | The same for one request for all movement, also where it throws. |
| `Signaling.JoinKeepsTables` | frame/libs/peerConnectionManager.ts:553-554 | Joining keeps `rooms` and the routing table equal where both have a room, with no server listed twice. |
| `Signaling.JoinKeepsMeshIff` | frame/libs/peerConnectionManager.ts:437-556 | After a join every peer has been sent a join for each egress server of its room and its own, if and only if servers were selected, or the joining peer has no egress server from before that is foreign to the room. |
| `Signaling.LeaveKeepsMesh` | frame/libs/peerConnectionManager.ts:563-670 | Leaving keeps that. |
| `Signaling.DisconnectKeepsMesh` | frame/libs/peerConnectionManager.ts:1605-1725 | Disconnecting keeps it. |
| `MeshRuns.MeshUntilStale` | frame/libs/peerConnectionManager.ts:437-556 | In every state of every run of any operations, with server closes and exceptions, each peer has been sent a join since its last `joinRoom` for all egress servers of its room and its own - up to the first join for which no servers can be selected, by a peer with an egress server foreign to the room, and that one breaks it. |
| `MeshRuns.OperationKeepsMeshIff` | frame/libs/peerConnectionManager.ts:563-670 | Any single operation keeps that if and only if it is not such a join. |
| `MeshRuns.TablesAlwaysAgree` | frame/libs/peerConnectionManager.ts:553-554 | In every state of every run `rooms` and the routing table have the same lists for each room that `rooms` has, and list no server twice. |
| `MeshRuns.AlwaysPlaced` | frame/libs/peerConnectionManager.ts:655-667 | In every state of every run whoever has an ingress or egress server is in a room. |
| `Signaling.PullLosesNoneIff` | frame/libs/peerConnectionManager.ts:1240-1289 | Leaving the lobby loses no announced movement if and only if each announcement in the room came from a routed egress server or was asked for before. |
| `Signaling.AnnounceLosesNone` | frame/libs/signalRouter.ts:363-378 | An announcement loses nothing for peers out of the lobby, whatever interleaving came before. |
| `Signaling.JoinLosesNoneIff` | frame/libs/peerConnectionManager.ts:437-556 | Joining - from any state, in or out of the lobby, with anything announced - loses no movement if and only if nothing announced is unheard between the joining peer and a peer of the room. |
| `Signaling.LeaveLosesNone` | frame/libs/peerConnectionManager.ts:563-670 | Leaving loses nothing. |
| `Signaling.DisconnectLosesNone` | frame/libs/peerConnectionManager.ts:1605-1725 | Disconnecting loses nothing. |
| `MovementRuns.OperationLosesIff` | frame/libs/peerConnectionManager.ts:1240-1289 | Any operation on any state that has lost no movement loses some if and only if it is a request for all movement that goes through although something was announced by an unrouted egress server, or a join with something announced and unheard. |
| `MovementRuns.NoneLostUntil` | frame/libs/signalRouter.ts:674-706 | In every state of every run of any operations no announced movement is lost to a peer out of the lobby, up to the first operation of those two kinds, and that one loses some. |
| `MovementRuns.OrderlyRunsLoseNone` | frame/libs/peerConnectionManager.ts:932-993 | In no state of any run is movement lost, with spectators, without send or ingress transports, with failed selections, exceptions and closes of servers, if peers join from no room, announcements come from egress servers that `rooms` lists, a leave that closes its room leaves nobody in it, and a closing server's rooms hold only its own peers. |
| `MovementRuns.CloseLosesMovement` | frame/libs/signalRouter.ts:695-700 | A reachable state in which an egress server closes under a room that others are still in, and the next request for movement from that room leaves the lobby and is asked for nothing, although another server had announced a peer. |
| `Counters.IngressCountsIff` | frame/libs/peerConnectionManager.ts:780-797 | An ingress transport keeps all counters right if and only if it is the peer's first since it joined and the peer is in the lobby. |
| `Counters.ConnectCountsIff` | frame/libs/peerConnectionManager.ts:869-884 | A send transport keeps them right if and only if it is the peer's first since it joined. |
| `Counters.ConsumeCountsIff` | frame/libs/peerConnectionManager.ts:1247-1263 | Asking for movement keeps them right if and only if the peer is out of the lobby already, or was counted, or the lobby counter is 0. |
| `Counters.LeaveCountsIff` | frame/libs/peerConnectionManager.ts:617-658 | Leaving keeps them right if and only if - in the own room: where it closes, no other counted peer stays behind, and elsewhere the peer was counted; in another room: the peer is in some room, counted in none, and nobody is counted in the room it names. |
| `Counters.DisconnectCountsIff` | frame/libs/peerConnectionManager.ts:1657-1721 | Disconnecting keeps them right if and only if it empties the room or the peer was counted. |
| `Counters.JoinCountsIff` | frame/libs/peerConnectionManager.ts:437-443 | Joining keeps them right if and only if the peer is in that room already or is not counted anywhere. |
| `Counters.DisconnectThrowsIff` | frame/libs/peerConnectionManager.ts:1657-1659 | Disconnecting throws if and only if the peer's room exists and has no counter, and then changes nothing. |
| `Counters.AskingKeepsCounts` | frame/libs/peerConnectionManager.ts:673-706 | Asking for counts makes counters for rooms that have none, and keeps all of them right. |
| `Counters.AskingMendsIff` | frame/libs/peerConnectionManager.ts:673-706 | It keeps a disconnect from throwing if and only if the room of that peer is among those asked for. |
| `CounterRuns.OperationCountsIff` | frame/libs/peerConnectionManager.ts:437-797 | In a state where all counters are right, any operation - by any peer, for any room, with any arguments, the close of a server included - keeps them right if and only if it is not a miscounting one. |
| `CounterRuns.CountsUntil` | frame/libs/peerConnectionManager.ts:437-797 | Over all runs of any operations: while no operation miscounted all counters are right, and the first miscounting operation makes one wrong. |
| `SpectatorRuns.OperationSeesIff` | frame/libs/peerConnectionManager.ts:622-657 | An operation keeps all counts of spectators right if and only if it is none of these: a spectator joins another room, leaves a room it is not in, asks for movement as a spectator again from the lobby, or is disconnected from a room that is gone; or a leave closes a room with other spectators in it. |
| `SpectatorRuns.SeenUntil` | frame/libs/peerConnectionManager.ts:563-1725 | In every state of every run of any operations the spectators are counted right up to the first of these, and that one makes a counter wrong. |
| `SpectatorRuns.LobbyNeverNegative` | frame/libs/peerConnectionManager.ts:633-638 | Whatever is miscounted, no lobby is ever counted below zero in any state of any run. |
| `CounterRuns.CloseCountsIff` | frame/libs/peerConnectionManager.ts:999-1018 | The close of a server keeps all counters right if and only if each peer that it disconnects was counted, or its room is empty then; or, where the room was gone before, was not counted. |
| `Counters.StrandedIff` | frame/libs/peerConnectionManager.ts:644-658 | A peer that stays behind loses its room if and only if nobody else was a participant or in the lobby: spectators are stranded. |
| `SignalingRuns.DocumentedOrderIsHealthy` | frame/libs/peerConnectionManager.ts:437-556 | In every state of every run in the documented order the three counters equal the numbers of peers they stand for, every peer is joined to all egress servers of its room, no announced movement is lost, both tables agree, and nothing throws. |
| `SignalingRuns.ActionHealthy` | frame/libs/peerConnectionManager.ts:744-798 | Each action of that order keeps all of this. |
| `RoomTables.Tables.Join` | frame/libs/peerConnectionManager.ts:446-554 | One room object is changed in place and entered in both tables, which thereby agree. |
| `RoomTables.JoinedIs` | frame/libs/peerConnectionManager.ts:514-554 | What the object has then is what `joinRoom` makes of the room in both tables. |
| `RoomTables.Tables.Delete` | frame/libs/peerConnectionManager.ts:645-658 | Deleting from `rooms` leaves the object in the routing table. |
| `RoomTables.Tables.DropServer` | frame/libs/peerConnectionManager.ts:1012-1017 | `rooms` loses exactly the rooms that name the server. |
| `RoomTables.Tables.DropRoutes` | frame/libs/signalRouter.ts:200-211 | The routing table loses exactly the rooms that list the server for its role. |
| `SignalRouters.SignalRouter.Register` | frame/libs/signalRouter.ts:260-284 | The server goes to the end of its region's list. |
| `SignalRouters.SignalRouter.ReportLoad` | frame/libs/signalRouter.ts:382-413 | Stores the load under region and server, in place of an earlier one. |
| `SignalRouters.SignalRouter.StorePipeRelay` | frame/libs/signalRouter.ts:294-305 | Records the pipe and passes the offer on if the egress server is connected. |
| `SignalRouters.SignalRouter.ConnectPipeRelay` | frame/libs/signalRouter.ts:316-345 | Finds the ingress server of the first pipe with that router and that egress server. |
| `SignalRouters.SignalRouter.ResolveServerToRegion` | frame/libs/signalRouter.ts:1108-1135 | Looks through the ingress regions before the egress regions. |
| `SignalRouters.SignalRouter.Strike` | frame/libs/signalRouter.ts:131-169 | Removes load entry and list entry in turn; an exception leaves what was done before it. |
| `SignalRouters.SignalRouter.Close` | frame/libs/signalRouter.ts:118-212 | The handler amounts to `CloseServer`, aborted where the manager or a missing table throws. |
| `ServerClose.LeastLoaded` | frame/libs/signalRouter.ts:1027-1029 | The first entry with the least load. |
| `ServerClose.GetServer` | frame/libs/signalRouter.ts:1019-1073 | The choice of an ingress or egress server with all fallbacks, and the crash on an empty load table. |
| `ServerClose.ChoiceIs` | frame/libs/signalRouter.ts:1019-1073 | The choice in any state: the first of the least loaded reporters of the region exactly where the region's list has it; an exception exactly where the region has servers and an empty load table; else the first server of the first region, and nobody exactly where that has none. |
| `ServerClose.RegisterIs` | frame/libs/signalRouter.ts:260-284 | A server that registers comes last in the list of its region, and a new region last of all. |
| `ServerClose.FilteredIs` | frame/libs/signalRouter.ts:138-146 | Striking a server changes only the first list of the region, which keeps its order. |
| `ServerClose.ResolvedIs` | frame/libs/signalRouter.ts:1108-1135 | A server is taken to be in the first ingress region that lists it, and in an egress region only if no ingress region does. |
| `ServerClose.ChosenIsRegistered` | frame/libs/signalRouter.ts:1019-1073 | Whatever server is returned is in a region list. |
| `ServerClose.ChosenIsLeastLoaded` | frame/libs/signalRouter.ts:1019-1041 | Where the region's least loaded reporter is registered there, the server returned has the least load. |
| `ServerClose.RouteDropped` | frame/libs/peerConnectionManager.ts:999-1018 | Dropping a route throws if and only if a peer of the server is in a room without a counter; otherwise no room names the server and no peer is on it. |
| `ServerClose.CloseLeavesNoTraceIff` | frame/libs/signalRouter.ts:118-212 | After a server's connection closes no list, load, pipe, room, route or peer names it, if and only if no peer of it is in a room without a counter and a load was reported in its region. |
| `ServerRuns.ConnectedInOnePlace` | frame/libs/signalRouter.ts:260-284 | In every state of every run of registrations, load reports, joins, other peer operations, pipe offers and closes, each connected server is in one region of its role and used in that role only, and whoever has servers is in a room. |
| `ServerRuns.RegistersIff` | frame/libs/signalRouter.ts:260-284 | A registration keeps each server in one region if and only if the server is listed in no other region; a server that is listed in this one is listed there twice. |
| `ServerRuns.TwiceStaysListed` | frame/libs/signalRouter.ts:140-144 | A server that is in two regions stays listed when its close strikes it from either. |
| `ServerRuns.BothRolesStayListed` | frame/libs/signalRouter.ts:118-146 | So does an egress server whose id an ingress region of another name lists. |
| `ServerRuns.ReportedNodesAre` | frame/libs/signalRouter.ts:382-406 | A load report takes the place of the server's earlier one, or comes last. |
| `ServerRuns.StoredIff` | frame/libs/signalRouter.ts:382-406 | In every state of every run a load is stored for a server in a region if and only if it is the last one that the server reported there, and its connection has not closed since without an exception. |
| `ServerRuns.LeastReporterIsChosen` | frame/libs/signalRouter.ts:1019-1073 | So wherever a load is stored in a region, the server chosen there is one whose last report is the least of all. |
| `ServerRuns.CloseInRunIff` | frame/libs/signalRouter.ts:118-212 | Whenever a connection closes in a run it leaves no trace of its server if and only if no peer of it is in a room without a counter and a load was reported in its region; nothing else is assumed of the state. |
| `ServerRuns.ClosedServerNotChosen` | frame/libs/signalRouter.ts:1019-1073 | After a clean close the server is not chosen in any later state before it registers again, in no region, and no room, route, list, load or peer names it. |
| `ServerRuns.TraceAgainIff` | frame/libs/signalRouter.ts:294-305 | A server without a trace gets one by the next event if and only if it registers, or a pipe is offered to it that was on its way when it closed: the offer is recorded without a check. |

## Left out

Assumptions of the models:

- The links between servers are first-in first-out and lose nothing, the channel to the writer drains, and in `Handshake` each handler runs to the end before the next begins; `create_egress_relay`, which releases the lock between check and insertion, is atomic there, and what concurrent handlers can do to each other is the subject of `Locks` only.
- In joint runs the media servers are given at the start and connected until they close. A server whose connection closes stops and does not come back under its id: the process exits then (`rust/src/main.rs:35-58`) and takes a new id when it starts (`rust/src/utils/utils.rs:51-57`). Messages to it are put on its link, where nobody reads them. Load tables do not restrict which server of a role a join is given.
- A leave by a peer that is in no room sends no order to destroy; in the source it would reach a room whose name is the text `undefined`.
- Ids of routers, transports, producers and consumers are fresh; the ip, port and keys of a pipe transport are represented by the transport's id.
- Failures of the media library are parameters where the handler goes on after them (producing, piping, consuming), and excluded elsewhere; code that ends the process is excluded.
- Rust's release build is modelled: the router index, the load counters and the size after a short header wrap.

Not modelled:

- JSON and serde shapes: payloads are bytes, and whether they parse is a parameter of the codec.
- The arithmetic of floating point: a movement value is the bytes that it is stored as, already rounded.
- The media library itself, sockets, the process link to the web socket server and the browser's user interface.
- Movement servers and their regions, which follow the same pattern as ingress and egress servers; the tables from which a client's region is resolved.
- Pausing, muting, hushing, indicators, statistics, ICE restarts, CPU load: forwarding without state.
- The field `egressRoute` of a pipe, which is kept for logging.
- The callback that ends a recording when the last participant disconnects.

Contracts weaker than the source, or in another form:

- HandshakeAgreements.HandshakeAgreement: for disciplined runs and rooms that were never dropped untold, because it fails without either; `JointCondition.SafeIffOwnRooms` and `JointCondition.SafeIff` give the exact conditions.
- HandshakeAgreements.ConnectAtMostOnce: for the same runs and rooms, for the same reason.
- JointSessions.OutsidersAreSafe: for rooms that were never dropped untold; `JointLosses.LostIff` says which these are, and `JointDrops.LeaveIsUnsafe` and `JointDrops.CloseIsUnsafe` show it fail for others.
- RelayProducers.MediaReachesRoom: for disciplined runs only; `JointSessions.OutsidersReachRooms` shows it of clients that join from no room, and `RelayProducers.WholeRoomIff` says exactly when one request reaches the room.
- MovementPackets.AtMostOneWideCall: for packets that are emitted; `MovementPackets.ArrivesIff` says exactly which intervals arrive.
- LedgerServer.PeerLedger.DisconnectTransport: the maps and lists are the components of one field, so that each of them could be replaced on its own between two locks is not captured.
- LockClashes.DeadlockFreeIff: read locks count as exclusive, and short locks around plain closures are left out.
- SignalingRuns.DocumentedOrderIsHealthy: the counters need less of such an order, as `CounterRuns.CountsUntil` shows; that joins and movement need less of it is shown by `MeshRuns.MeshUntilStale` and `MovementRuns.OrderlyRunsLoseNone`.
- SignalingRuns.ActionHealthy: for the same actions.
- ServerClose.CloseLeavesNoTraceIff: for a server registered in one region and used in one role, and peers that are in a room if they have servers; `ServerRuns.ConnectedInOnePlace` shows both of every connected server in every run.
- ServerClose.RouteDropped: for peers that are in a room if they have servers, which `MeshRuns.AlwaysPlaced` shows of every run.
- ServerRuns.ConnectedInOnePlace: a server that is still listed, because its close was aborted, registers again in its own region only, where it is listed twice then; `ServerRuns.RegistersIff` shows that registering in another region is what breaks it.
- ServerRuns.ClosedServerNotChosen: for the same runs; `ServerRuns.TwiceStaysListed` shows a server in two regions stay listed.
- JointRuns.AlwaysCoupled: the network lists the servers of a room as one set; which of them are ingress servers it knows from the servers themselves, rightly so by `JointOrders.AlwaysRoled`.
- The network of `Handshake` is a value and its steps are functions; the methods of `MediaServers.MediaServer` and `SignalRouters.SignalRouter` are tied to the same functions.

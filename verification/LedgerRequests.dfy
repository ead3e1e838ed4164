/** What the books of an egress server hold in every state of every run - producers under their kinds,
    transports, routers and endpoints - and what a request for one kind makes of them. */
module LedgerRequests {
  import opened Sfu
  import opened Ledger

  datatype Kind = Audio | Video | Movement | Events | Transports | Routers | Endpoints

  // ---------------------------------------------------------------- what is listed

  /** Producer `id` is listed for the peer `p` under the kind; or transport `id` is the peer's, or the
      router or the peer of transport `p` is `id`. */
  predicate Holds(b: Books, kind: Kind, p: nat, id: nat) {
    match kind
    case Audio => p in b.audio && id in b.audio[p]
    case Video => p in b.video && id in b.video[p]
    case Movement => p in b.movement && b.movement[p] == id
    case Events => p in b.events && b.events[p] == id
    case Transports => p in b.transports && b.transports[p] == id
    case Routers => p in b.routerOf && b.routerOf[p] == id
    case Endpoints => p in b.endpoints && b.endpoints[p] == id
  }

  /** A producer of the kind that is not refused: the id is new, and for data no event producer of the
      peer is there.  Or a transport that is opened. */
  predicate Enters(b: Books, c: Call, kind: Kind, p: nat, id: nat) {
    match kind
    case Audio => c == Produce(true, p, id) && id !in b.producers
    case Video => c == Produce(false, p, id) && id !in b.producers
    case Movement => c == ProduceData(AvatarMovement, p, id) && p !in b.events && id !in b.dataProducers
    case Events => c == ProduceData(FrameEvents, p, id) && p !in b.events && id !in b.dataProducers
    case Transports => c.Open? && c.peer == p && c.transport == id
    case Routers => c.Open? && c.transport == p && c.router == id
    case Endpoints => c.Open? && c.transport == p && c.peer == id
  }

  /** The peer disconnects, closes the producer if that is video, replaces it if it is movement, or opens
      another transport.  Or the transport closes, or is opened again. */
  predicate Removes(b: Books, c: Call, kind: Kind, p: nat, id: nat) {
    match kind
    case Audio => c == Disconnect(p)
    case Video => c == Disconnect(p) || c == CloseProducer(p, id, true)
    case Movement => c == Disconnect(p) || (c.ProduceData? && Enters(b, c, Movement, p, c.id))
    case Events => c == Disconnect(p)
    case Transports => c == Disconnect(p) || (c.Open? && c.peer == p)
    case _ => c == Closed(p) || (c.Open? && c.transport == p)
  }

  /** Requests change records and consumers only. */
  ghost predicate OnlyRecords(b: Books, b': Books) {
    b' == b.(audioConsumed := b'.audioConsumed, videoConsumed := b'.videoConsumed, consumers := b'.consumers,
             movementConsumed := b'.movementConsumed, eventConsumed := b'.eventConsumed,
             dataConsumers := b'.dataConsumers)
  }

  lemma MediaRecordsOnly(b: Books, next: ConsumerId, c: Call)
    requires c.ConsumeAudio? || c.ConsumeVideo?
    ensures OnlyRecords(b, Handle(b, next, c).0)
  {
  }

  lemma DataRecordsOnly(b: Books, next: ConsumerId, c: Call)
    requires c.ConsumeMovement? || c.ConsumeEvents?
    ensures OnlyRecords(b, Handle(b, next, c).0)
  {
  }

  lemma TransportAfter(b: Books, next: ConsumerId, c: Call, kind: Kind, p: nat, id: nat)
    requires c.Open? || c.Closed?
    ensures Holds(Handle(b, next, c).0, kind, p, id) <==>
      Enters(b, c, kind, p, id) || (Holds(b, kind, p, id) && !Removes(b, c, kind, p, id))
  {
  }

  lemma ListedHas(m: map<Peer, seq<ProducerId>>, x: Peer, made: ProducerId, p: Peer, id: ProducerId)
    ensures p in Listed(m, x, made) && id in Listed(m, x, made)[p] <==>
      (p == x && id == made) || (p in m && id in m[p])
  {
  }

  /** Producers are listed in the order in which they were made, and one that is closed leaves the others
      in theirs. */
  lemma ListedIs(m: map<Peer, seq<ProducerId>>, p: Peer, before: seq<ProducerId>, id: ProducerId)
    requires before == if p in m then m[p] else []
    ensures Listed(m, p, id) == m[p := before + [id]]
  {
  }

  lemma {:induction false} UnlistedIs(a: seq<ProducerId>, id: ProducerId, b: seq<ProducerId>)
    requires id !in a && id !in b
    ensures Unlisted(a + [id] + b, id) == a + b
  {
    var all := a + [id] + b;
    if a == [] {
      assert all[0] == id && all[1..] == b;
      UnlistedNone(b, id);
    } else {
      UnlistedIs(a[1..], id, b);
      assert all[0] == a[0] && all[1..] == a[1..] + [id] + b;
      assert [a[0]] + (a[1..] + b) == a + b;
    }
  }

  lemma {:induction false} UnlistedNone(ids: seq<ProducerId>, id: ProducerId)
    requires id !in ids
    ensures Unlisted(ids, id) == ids
  {
    if ids != [] {
      UnlistedNone(ids[1..], id);
    }
  }

  lemma AudioProducedAfter(b: Books, x: Peer, made: ProducerId, kind: Kind, p: nat, id: nat)
    requires made !in b.producers
    ensures Holds(Produced(b, true, x, made), kind, p, id) <==>
      (kind == Audio && p == x && id == made) || Holds(b, kind, p, id)
  {
    ListedHas(b.audio, x, made, p, id);
    assert Produced(b, true, x, made).audio == Listed(b.audio, x, made);
  }

  lemma VideoProducedAfter(b: Books, x: Peer, made: ProducerId, kind: Kind, p: nat, id: nat)
    requires made !in b.producers
    ensures Holds(Produced(b, false, x, made), kind, p, id) <==>
      (kind == Video && p == x && id == made) || Holds(b, kind, p, id)
  {
    ListedHas(b.video, x, made, p, id);
    assert Produced(b, false, x, made).video == Listed(b.video, x, made);
  }

  lemma ProducedAfter(b: Books, audio: bool, x: Peer, made: ProducerId, kind: Kind, p: nat, id: nat)
    ensures var c := Produce(audio, x, made);
      Holds(Produced(b, audio, x, made), kind, p, id) <==>
        Enters(b, c, kind, p, id) || (Holds(b, kind, p, id) && !Removes(b, c, kind, p, id))
  {
    var c := Produce(audio, x, made);
    assert !Removes(b, c, kind, p, id);
    assert Enters(b, c, kind, p, id) <==>
      made !in b.producers && kind == (if audio then Audio else Video) && p == x && id == made;
    if made in b.producers {
      assert Produced(b, audio, x, made) == b;
    } else if audio {
      AudioProducedAfter(b, x, made, kind, p, id);
    } else {
      VideoProducedAfter(b, x, made, kind, p, id);
    }
  }

  lemma DataProducedAfter(b: Books, channel: Label, x: Peer, made: ProducerId, kind: Kind, p: nat, id: nat)
    ensures var c := ProduceData(channel, x, made);
      Holds(DataProduced(b, channel, x, made), kind, p, id) <==>
        Enters(b, c, kind, p, id) || (Holds(b, kind, p, id) && !Removes(b, c, kind, p, id))
  {
  }

  lemma ProducerClosedAfter(b: Books, x: Peer, closed: ProducerId, known: bool, kind: Kind, p: nat, id: nat)
    ensures var c := CloseProducer(x, closed, known);
      Holds(ProducerClosed(b, x, closed, known), kind, p, id) <==>
        Enters(b, c, kind, p, id) || (Holds(b, kind, p, id) && !Removes(b, c, kind, p, id))
  {
    var b' := ProducerClosed(b, x, closed, known);
    assert b' == b.(video := b'.video);
    if kind == Video && known && x in b.video {
      assert b'.video == b.video[x := Unlisted(b.video[x], closed)];
    }
  }

  lemma DisconnectedAfter(b: Books, x: Peer, kind: Kind, p: nat, id: nat)
    ensures var c := Disconnect(x);
      Holds(Disconnected(b, x), kind, p, id) <==>
        Enters(b, c, kind, p, id) || (Holds(b, kind, p, id) && !Removes(b, c, kind, p, id))
  {
  }

  lemma HoldsAfter(b: Books, next: ConsumerId, c: Call, kind: Kind, p: nat, id: nat)
    ensures Holds(Handle(b, next, c).0, kind, p, id) <==>
      Enters(b, c, kind, p, id) || (Holds(b, kind, p, id) && !Removes(b, c, kind, p, id))
  {
    match c
    case Produce(audio, x, made) => ProducedAfter(b, audio, x, made, kind, p, id);
    case ProduceData(channel, x, made) => DataProducedAfter(b, channel, x, made, kind, p, id);
    case CloseProducer(x, closed, known) => ProducerClosedAfter(b, x, closed, known, kind, p, id);
    case Disconnect(x) => DisconnectedAfter(b, x, kind, p, id);
    case Open(_, _, _) => TransportAfter(b, next, c, kind, p, id);
    case Closed(_) => TransportAfter(b, next, c, kind, p, id);
    case _ =>
      if c.ConsumeAudio? || c.ConsumeVideo? {
        MediaRecordsOnly(b, next, c);
      } else {
        DataRecordsOnly(b, next, c);
      }
  }

  ghost predicate EnteredAt(trace: seq<(Books, ConsumerId)>, calls: seq<Call>, j: nat, k: nat, kind: Kind, p: nat,
      id: nat)
    requires |trace| == |calls| + 1 && k < |trace|
  {
    && j < k && Enters(trace[j].0, calls[j], kind, p, id)
    && forall m :: j < m < k ==> !Removes(trace[m].0, calls[m], kind, p, id)
  }

  lemma EnteredNext(trace: seq<(Books, ConsumerId)>, calls: seq<Call>, i: nat, k: nat, kind: Kind, p: nat,
      id: nat)
    requires |trace| == |calls| + 1 && i < |calls| && k == i + 1
    ensures (exists j: nat :: EnteredAt(trace, calls, j, k, kind, p, id)) <==>
      || Enters(trace[i].0, calls[i], kind, p, id)
      || (!Removes(trace[i].0, calls[i], kind, p, id)
          && exists j: nat :: EnteredAt(trace, calls, j, i, kind, p, id))
  {
    if j: nat :| EnteredAt(trace, calls, j, i, kind, p, id) {
      assert !Removes(trace[i].0, calls[i], kind, p, id) ==> EnteredAt(trace, calls, j, k, kind, p, id);
    }
    if Enters(trace[i].0, calls[i], kind, p, id) {
      assert EnteredAt(trace, calls, i, k, kind, p, id);
    }
    if j: nat :| EnteredAt(trace, calls, j, k, kind, p, id) {
      assert j < i ==> EnteredAt(trace, calls, j, i, kind, p, id);
    }
  }

  /** In every state of every run a peer's producers of a kind are exactly those that were made as that
      kind and not refused, and have not been removed since; and so for transports. */
  lemma {:induction false} HoldsIff(trace: seq<(Books, ConsumerId)>, calls: seq<Call>, k: nat, kind: Kind, p: nat,
      id: nat)
    requires Run(trace, calls) && k < |trace|
    ensures Holds(trace[k].0, kind, p, id) <==> exists j: nat :: EnteredAt(trace, calls, j, k, kind, p, id)
  {
    if k > 0 {
      var i := k - 1;
      HoldsIff(trace, calls, i, kind, p, id);
      EnteredNext(trace, calls, i, k, kind, p, id);
      assert trace[i + 1] == Handle(trace[i].0, trace[i].1, calls[i]);
      HoldsAfter(trace[i].0, trace[i].1, calls[i], kind, p, id);
    }
  }

  // ---------------------------------------------------------------- requests for audio or video

  /** The peer has a record of this producer. */
  ghost predicate Had(before: seq<Consumed>, p: Peer, id: ProducerId) {
    exists c :: c in before && c.peer == p && c.producer == id
  }

  /** What a request wants: a producer of a peer asked for that can be consumed and was not before. */
  ghost predicate Wants(q: Request, before: seq<Consumed>, listed: map<Peer, seq<ProducerId>>, peers: seq<Peer>,
      id: ProducerId)
  {
    id in q.able && !Had(before, q.consumer, id) && exists p :: p in peers && p in listed && id in listed[p]
  }

  /** Nothing stands in the way of this producer. */
  ghost predicate Passes(q: Request, before: seq<Consumed>, id: ProducerId) {
    Had(before, q.consumer, id) || (q.reachable && (id in q.able ==> id !in q.fails))
  }

  /** What was recorded for the consumer since was recordable. */
  ghost predicate Passed(q: Request, s: Progress, t: Progress) {
    forall id :: Already(t.records, q.consumer, id) ==>
      Already(s.records, q.consumer, id) || (q.reachable && id in q.able && id !in q.fails)
  }

  lemma OnePasses(q: Request, s: Progress, t: Progress, peer: Peer, id: ProducerId)
    requires s.records <= t.records && Passed(q, s, t)
    ensures Passed(q, s, AfterOne(q, t, peer, id)) && s.records <= AfterOne(q, t, peer, id).records
    ensures AfterOne(q, t, peer, id).ok <==> t.ok && Passes(q, s.records, id)
  {
    OneGrows(q, t, peer, id);
    if Already(s.records, q.consumer, id) {
      AlreadyStays(s.records, t.records, q.consumer, id);
    }
  }

  lemma {:induction false} ListPasses(q: Request, s: Progress, t: Progress, peer: Peer, ids: seq<ProducerId>)
    requires s.records <= t.records && Passed(q, s, t)
    ensures Passed(q, s, AfterList(q, t, peer, ids)) && s.records <= AfterList(q, t, peer, ids).records
    ensures AfterList(q, t, peer, ids).ok <==> t.ok && forall id :: id in ids ==> Passes(q, s.records, id)
    decreases |ids|
  {
    if ids != [] {
      var n := |ids| - 1;
      ListPasses(q, s, t, peer, ids[..n]);
      OnePasses(q, s, AfterList(q, t, peer, ids[..n]), peer, ids[n]);
      assert ids == ids[..n] + [ids[n]];
    }
  }

  /** A request succeeds exactly if nothing stands in the way of any producer of the peers asked for. */
  lemma {:induction false} RequestPasses(q: Request, s: Progress, listed: map<Peer, seq<ProducerId>>, peers: seq<Peer>)
    ensures Passed(q, s, AfterPeers(q, s, listed, peers)) && s.records <= AfterPeers(q, s, listed, peers).records
    ensures AfterPeers(q, s, listed, peers).ok <==>
      s.ok && forall p, id :: p in peers && p in listed && id in listed[p] ==> Passes(q, s.records, id)
  {
    if peers != [] {
      var n := |peers| - 1;
      RequestPasses(q, s, listed, peers[..n]);
      if peers[n] in listed {
        ListPasses(q, s, AfterPeers(q, s, listed, peers[..n]), peers[n], listed[peers[n]]);
      }
      assert peers == peers[..n] + [peers[n]];
    }
  }

  /** News is of the consumer, about a peer asked for, and of one of that peer's producers. */
  ghost predicate Due(q: Request, listed: map<Peer, seq<ProducerId>>, peers: seq<Peer>, n: News) {
    n.about in peers && n.about in listed && n.record.producer in listed[n.about] && n.record.peer == q.consumer
  }

  lemma {:induction false} ListIsDue(q: Request, s: Progress, listed: map<Peer, seq<ProducerId>>, peers: seq<Peer>,
      peer: Peer, ids: seq<ProducerId>)
    requires peer in peers && peer in listed && forall id :: id in ids ==> id in listed[peer]
    ensures var t := AfterList(q, s, peer, ids);
      s.news <= t.news && forall k :: |s.news| <= k < |t.news| ==> Due(q, listed, peers, t.news[k])
  {
    if ids != [] {
      var n := |ids| - 1;
      assert ids[n] in ids;
      ListIsDue(q, s, listed, peers, peer, ids[..n]);
    }
  }

  lemma {:induction false} NewsIsDue(q: Request, s: Progress, listed: map<Peer, seq<ProducerId>>, peers: seq<Peer>,
      n: nat)
    requires n <= |peers|
    ensures var t := AfterPeers(q, s, listed, peers[..n]);
      s.news <= t.news && forall k :: |s.news| <= k < |t.news| ==> Due(q, listed, peers, t.news[k])
    decreases n
  {
    if n > 0 {
      NewsIsDue(q, s, listed, peers, n - 1);
      assert peers[..n][..n - 1] == peers[..n - 1];
      if peers[n - 1] in listed {
        ListIsDue(q, AfterPeers(q, s, listed, peers[..n - 1]), listed, peers, peers[n - 1], listed[peers[n - 1]]);
      }
    }
  }

  ghost predicate Reports(news: seq<News>, id: ProducerId) {
    exists k :: 0 <= k < |news| && news[k].record.producer == id
  }

  lemma ReportedIsWanted(q: Request, s: Progress, listed: map<Peer, seq<ProducerId>>, peers: seq<Peer>, k: nat)
    requires s.news == [] && k < |AfterPeers(q, s, listed, peers).news|
    ensures Wants(q, s.records, listed, peers, AfterPeers(q, s, listed, peers).news[k].record.producer)
  {
    var t := AfterPeers(q, s, listed, peers);
    var more := ContinuesPeers(q, s, listed, peers);
    NewsIsDue(q, s, listed, peers, |peers|);
    assert peers[..|peers|] == peers && Records(s.news) == [];
    assert Due(q, listed, peers, t.news[k]) && Records(t.news)[k] == more[k] && more[k] in more;
    assert !Already(s.records, q.consumer, more[k].producer);
  }

  lemma WantedIsReported(q: Request, s: Progress, listed: map<Peer, seq<ProducerId>>, peers: seq<Peer>, id: ProducerId)
    requires s.news == [] && AfterPeers(q, s, listed, peers).ok && Wants(q, s.records, listed, peers, id)
    ensures Reports(AfterPeers(q, s, listed, peers).news, id)
  {
    var t := AfterPeers(q, s, listed, peers);
    var more := ContinuesPeers(q, s, listed, peers);
    PeersGrow(q, s, listed, peers);
    assert Already(t.records, q.consumer, id) && Records(s.news) == [];
    var c :| c in t.records && c.peer == q.consumer && c.producer == id;
    assert c in more by { assert c in s.records ==> Had(s.records, q.consumer, id); }
    var k :| 0 <= k < |more| && more[k] == c;
    assert Records(t.news)[k] == c;
  }

  /** A request that succeeds announces exactly what it wants. */
  lemma AnnouncesIff(q: Request, s: Progress, listed: map<Peer, seq<ProducerId>>, peers: seq<Peer>, id: ProducerId)
    requires s.news == [] && AfterPeers(q, s, listed, peers).ok
    ensures Reports(AfterPeers(q, s, listed, peers).news, id) <==> Wants(q, s.records, listed, peers, id)
  {
    if Wants(q, s.records, listed, peers, id) {
      WantedIsReported(q, s, listed, peers, id);
    }
    if Reports(AfterPeers(q, s, listed, peers).news, id) {
      var news := AfterPeers(q, s, listed, peers).news;
      var k :| 0 <= k < |news| && news[k].record.producer == id;
      ReportedIsWanted(q, s, listed, peers, k);
    }
  }

  // ---------------------------------------------------------------- what the client is told

  /** The records made because peer `p` was asked for, in order. */
  function About(news: seq<News>, p: Peer): seq<Consumed> {
    if news == [] then []
    else (if news[0].about == p then [news[0].record] else []) + About(news[1..], p)
  }

  lemma {:induction false} AboutNext(news: seq<News>, n: News, p: Peer)
    ensures About(news + [n], p) == About(news, p) + if n.about == p then [n.record] else []
  {
    if news == [] {
      assert [n][1..] == [] && [] + [n] == [n];
    } else {
      var all, rest := news + [n], news[1..];
      AboutNext(rest, n, p);
      assert all[0] == news[0] && all[1..] == rest + [n];
      var first := if news[0].about == p then [news[0].record] else [];
      assert About(all, p) == first + About(rest + [n], p);
      assert first + (About(rest, p) + [n.record]) == first + About(rest, p) + [n.record];
    }
  }

  /** The announcement has all news, by peer and in order, and no peer without news. */
  lemma {:induction false} AnnouncementIs(news: seq<News>, p: Peer)
    ensures p in Announcement(news) <==> About(news, p) != []
    ensures p in Announcement(news) ==> Announcement(news)[p] == About(news, p)
  {
    if news != [] {
      var n := |news| - 1;
      AnnouncementIs(news[..n], p);
      AboutNext(news[..n], news[n], p);
      assert news == news[..n] + [news[n]];
    }
  }

  /** The consumer has a transport, and that has a router which is there. */
  predicate Linked(b: Books, routers: set<RouterId>, p: Peer) {
    p in b.transports && b.transports[p] in b.routerOf && b.routerOf[b.transports[p]] in routers
  }

  /** A request for audio looks at the audio producers and their records only, and so for video: it
      succeeds exactly if each producer of the peers asked for was consumed before, or the consumer is
      linked and the library does not fail; and then it announces those that can be consumed and were not
      before. */
  lemma MediaRequestIs(b: Books, next: ConsumerId, c: Call, id: ProducerId)
    requires c.ConsumeAudio? || c.ConsumeVideo?
    ensures
      var t := if c.ConsumeAudio? then AudioRequest(b, next, c) else VideoRequest(b, next, c);
      var listed := if c.ConsumeAudio? then b.audio else b.video;
      var before := if c.ConsumeAudio? then b.audioConsumed else b.videoConsumed;
      var q := Request(c.consumer, Linked(b, c.routers, c.consumer), c.able, c.fails);
      && (t.ok <==> forall p, x :: p in c.peers && p in listed && x in listed[p] ==> Passes(q, before, x))
      && (t.ok ==> (Reports(t.news, id) <==> Wants(q, before, listed, c.peers, id)))
  {
    var q := Request(c.consumer, Linked(b, c.routers, c.consumer), c.able, c.fails);
    var before := if c.ConsumeAudio? then b.audioConsumed else b.videoConsumed;
    var s := Progress(before, b.consumers, [], next, true);
    MediaIs(q, s, if c.ConsumeAudio? then b.audio else b.video, c.peers, id);
  }

  lemma MediaIs(q: Request, s: Progress, listed: map<Peer, seq<ProducerId>>, peers: seq<Peer>, id: ProducerId)
    requires s.ok && s.news == []
    ensures var t := AfterPeers(q, s, listed, peers);
      && (t.ok <==> forall p, x :: p in peers && p in listed && x in listed[p] ==> Passes(q, s.records, x))
      && (t.ok ==> (Reports(t.news, id) <==> Wants(q, s.records, listed, peers, id)))
  {
    RequestPasses(q, s, listed, peers);
    if AfterPeers(q, s, listed, peers).ok {
      AnnouncesIff(q, s, listed, peers, id);
    }
  }

  /** What a request announces is what it adds to the records of its kind and to the consumers. */
  lemma MediaRecords(b: Books, next: ConsumerId, c: Call)
    requires c.ConsumeAudio? || c.ConsumeVideo?
    ensures
      var t := if c.ConsumeAudio? then AudioRequest(b, next, c) else VideoRequest(b, next, c);
      var more, b' := Records(t.news), Handle(b, next, c).0;
      && b'.consumers == b.consumers + Ids(more)
      && b'.audioConsumed == b.audioConsumed + (if c.ConsumeAudio? then more else [])
      && b'.videoConsumed == b.videoConsumed + (if c.ConsumeAudio? then [] else more)
  {
    var q := Request(c.consumer, Reachable(b, c.routers, c.consumer), c.able, c.fails);
    if c.ConsumeAudio? {
      var more := ContinuesPeers(q, Progress(b.audioConsumed, b.consumers, [], next, true), b.audio, c.peers);
    } else {
      var more := ContinuesPeers(q, Progress(b.videoConsumed, b.consumers, [], next, true), b.video, c.peers);
    }
  }

  // ---------------------------------------------------------------- requests for movement or events

  lemma {:induction false} DataNews(q: Request, s: DataProgress, producers: map<Peer, ProducerId>, peers: seq<Peer>)
    requires s.ok && s.news == map[]
    ensures var t := AfterAllData(q, s, producers, peers);
      && (forall p :: p in t.news ==> p in peers && p in producers && t.news[p].peer == q.consumer
                                      && t.news[p].producer == producers[p])
      && (t.ok ==> forall p :: p in peers && p in producers && q.reachable ==> p in t.news)
    decreases |peers|
  {
    if peers != [] {
      var n := |peers| - 1;
      DataNews(q, s, producers, peers[..n]);
      assert peers == peers[..n] + [peers[n]];
    }
  }

  /** A request for movement looks at the movement producers only, and so for events: it succeeds exactly
      if the consumer has no transport or the library fails for no producer of the peers asked for; then
      it announces one consumer for each of these peers; and it records one for each time that a peer is
      asked for, in order, up to the first failure. */
  lemma DataRequestIs(b: Books, next: ConsumerId, c: Call) returns (more: seq<Consumed>)
    requires c.ConsumeMovement? || c.ConsumeEvents?
    ensures
      var t := if c.ConsumeMovement? then MovementRequest(b, next, c) else EventRequest(b, next, c);
      var made := if c.ConsumeMovement? then b.movement else b.events;
      var there := c.consumer in b.transports;
      && (t.ok <==> !there || forall p :: p in c.peers && p in made ==> made[p] !in c.fails)
      && (t.ok ==> forall p :: p in t.news <==> there && p in c.peers && p in made)
      && (forall p :: p in t.news ==> p in made && t.news[p].peer == c.consumer && t.news[p].producer == made[p])
      && RecordsOf(more, c.consumer, Wanted(Request(c.consumer, there, {}, c.fails), made, c.peers))
    ensures var b' := Handle(b, next, c).0;
      && b'.movementConsumed == b.movementConsumed + (if c.ConsumeMovement? then more else [])
      && b'.eventConsumed == b.eventConsumed + (if c.ConsumeMovement? then [] else more)
  {
    var q := Request(c.consumer, c.consumer in b.transports, {}, c.fails);
    if c.ConsumeMovement? {
      more := DataIs(q, DataProgress(b.movementConsumed, b.dataConsumers, map[], next, true), b.movement, c.peers);
    } else {
      more := DataIs(q, DataProgress(b.eventConsumed, b.dataConsumers, map[], next, true), b.events, c.peers);
    }
  }

  lemma DataIs(q: Request, s: DataProgress, producers: map<Peer, ProducerId>, peers: seq<Peer>)
    returns (more: seq<Consumed>)
    requires s.ok && s.news == map[]
    ensures var t := AfterAllData(q, s, producers, peers);
      && (t.ok <==> !q.reachable || forall p :: p in peers && p in producers ==> producers[p] !in q.fails)
      && (t.ok ==> forall p :: p in t.news <==> q.reachable && p in peers && p in producers)
      && (forall p :: p in t.news ==> p in producers && t.news[p].peer == q.consumer
                                      && t.news[p].producer == producers[p])
      && RecordsOf(more, q.consumer, Wanted(q, producers, peers)) && t.records == s.records + more
  {
    FailsIff(q, s, producers, peers);
    DataNews(q, s, producers, peers);
    more := WantedRecorded(q, s, producers, peers);
    if !q.reachable {
      Unreached(q, s, producers, peers);
    }
  }

  lemma {:induction false} Unreached(q: Request, s: DataProgress, producers: map<Peer, ProducerId>, peers: seq<Peer>)
    requires !q.reachable
    ensures AfterAllData(q, s, producers, peers) == s
    decreases |peers|
  {
    if peers != [] {
      Unreached(q, s, producers, peers[..|peers| - 1]);
    }
  }

  // ---------------------------------------------------------------- from a producer to its consumers

  lemma OneData(q: Request, s: DataProgress, producers: map<Peer, ProducerId>, p: Peer)
    ensures AfterAllData(q, s, producers, [p]) == AfterData(q, s, producers, p)
  {
    assert [p][..0] == [];
    assert AfterAllData(q, s, producers, []) == s;
  }

  /** A movement producer that was not refused is what the next request for that peer's movement
      announces; requests for events are answered as before. */
  lemma MovementReaches(b: Books, next: ConsumerId, p: Peer, id: ProducerId, c: Call)
    requires p !in b.events && id !in b.dataProducers
    ensures var b' := Handle(b, next, ProduceData(AvatarMovement, p, id)).0;
      && (c.ConsumeMovement? && c.consumer in b.transports && c.peers == [p] && id !in c.fails ==>
            && MovementRequest(b', next, c).news == map[p := Consumed(c.consumer, id, next)]
            && MovementRequest(b', next, c).ok
            && Handle(b', next, c).0.movementConsumed == b.movementConsumed + [Consumed(c.consumer, id, next)])
      && (c.ConsumeEvents? ==> EventRequest(b', next, c) == EventRequest(b, next, c))
  {
    if c.ConsumeMovement? && c.peers == [p] {
      OneData(Request(c.consumer, c.consumer in b.transports, {}, c.fails),
              DataProgress(b.movementConsumed, b.dataConsumers, map[], next, true), b.movement[p := id], p);
    }
  }

  lemma EventsReach(b: Books, next: ConsumerId, p: Peer, id: ProducerId, c: Call)
    requires p !in b.events && id !in b.dataProducers
    ensures var b' := Handle(b, next, ProduceData(FrameEvents, p, id)).0;
      && (c.ConsumeEvents? && c.consumer in b.transports && c.peers == [p] && id !in c.fails ==>
            && EventRequest(b', next, c).news == map[p := Consumed(c.consumer, id, next)]
            && EventRequest(b', next, c).ok
            && Handle(b', next, c).0.eventConsumed == b.eventConsumed + [Consumed(c.consumer, id, next)])
      && (c.ConsumeMovement? ==> MovementRequest(b', next, c) == MovementRequest(b, next, c))
  {
    if c.ConsumeEvents? && c.peers == [p] {
      OneData(Request(c.consumer, c.consumer in b.transports, {}, c.fails),
              DataProgress(b.eventConsumed, b.dataConsumers, map[], next, true), b.events[p := id], p);
    }
  }

  /** A data producer keeps later ones of its peer out exactly if it is an event producer. */
  lemma BlocksIff(b: Books, channel: Label, p: Peer, id: ProducerId, later: Label, id': ProducerId)
    requires p !in b.events && id !in b.dataProducers && channel != Other
    requires later != Other && id' !in b.dataProducers && id' != id
    ensures var b' := DataProduced(DataProduced(b, channel, p, id), later, p, id');
      && (id' !in b'.dataProducers <==> channel == FrameEvents)
      && (id' in b'.dataProducers ==> Holds(b', if later == FrameEvents then Events else Movement, p, id'))
  {
  }

  /** An audio producer that was not refused is announced by the next request for that peer's audio, if
      that finds nothing else; requests for video are answered as before. */
  lemma AudioReaches(b: Books, next: ConsumerId, p: Peer, id: ProducerId, c: Call)
    requires Balanced(b, next) && id !in b.producers
    ensures var b' := Handle(b, next, Produce(true, p, id)).0;
      && (c.ConsumeAudio? && p in c.peers && AudioRequest(b', next, c).ok ==>
            (Reports(AudioRequest(b', next, c).news, id) <==>
              id in c.able && !Had(b.audioConsumed, c.consumer, id)))
      && (c.ConsumeVideo? ==> VideoRequest(b', next, c) == VideoRequest(b, next, c))
  {
    ProduceLists(b, Produce(true, p, id), next);
    var b' := Handle(b, next, Produce(true, p, id)).0;
    ListedHas(b.audio, p, id, p, id);
    if c.ConsumeAudio? {
      MediaRequestIs(b', next, c, id);
    }
  }

  lemma VideoReaches(b: Books, next: ConsumerId, p: Peer, id: ProducerId, c: Call)
    requires Balanced(b, next) && id !in b.producers
    ensures var b' := Handle(b, next, Produce(false, p, id)).0;
      && (c.ConsumeVideo? && p in c.peers && VideoRequest(b', next, c).ok ==>
            (Reports(VideoRequest(b', next, c).news, id) <==>
              id in c.able && !Had(b.videoConsumed, c.consumer, id)))
      && (c.ConsumeAudio? ==> AudioRequest(b', next, c) == AudioRequest(b, next, c))
  {
    ProduceLists(b, Produce(false, p, id), next);
    var b' := Handle(b, next, Produce(false, p, id)).0;
    ListedHas(b.video, p, id, p, id);
    if c.ConsumeVideo? {
      MediaRequestIs(b', next, c, id);
    }
  }
}

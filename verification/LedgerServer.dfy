/** The handlers that keep the books, step by step. */
module LedgerServer {
  import opened Sfu
  import opened Ledger

  /** The loops of `consume_audio` and `consume_video`, over the producers `listed` and the list of
      what was `consumed` before.  On a failure nothing is announced. */
  method ConsumeMedia(q: Request, listed: map<Peer, seq<ProducerId>>, peers: seq<Peer>,
                      consumed: seq<Consumed>, consumers: set<ConsumerId>, first: ConsumerId)
    returns (consumed': seq<Consumed>, consumers': set<ConsumerId>, ok: bool, announcement: map<Peer, seq<Consumed>>)
    ensures var end := AfterPeers(q, Progress(consumed, consumers, [], first, true), listed, peers);
      && consumed' == end.records && consumers' == end.consumers && ok == end.ok
      && announcement == if end.ok then Announcement(end.news) else map[]
  {
    ghost var start := Progress(consumed, consumers, [], first, true);
    var next := first;
    ghost var news := [];
    consumed', consumers', announcement := consumed, consumers, map[];
    for i := 0 to |peers|
      invariant Progress(consumed', consumers', news, next, true) == AfterPeers(q, start, listed, peers[..i])
      invariant announcement == Announcement(news)
    {
      assert peers[..i + 1][..i] == peers[..i];
      if peers[i] !in listed {
        continue;
      }
      var current := listed[peers[i]];
      ghost var before := AfterPeers(q, start, listed, peers[..i]);
      for j := 0 to |current|
        invariant Progress(consumed', consumers', news, next, true) == AfterList(q, before, peers[i], current[..j])
        invariant announcement == Announcement(news)
      {
        assert current[..j + 1][..j] == current[..j];
        if exists c :: c in consumed' && c.peer == q.consumer && c.producer == current[j] {
          continue;
        }
        if !q.reachable || (current[j] in q.able && current[j] in q.fails) {
          StoppedAt(q, start, listed, peers, i, j);
          return consumed', consumers', false, map[];
        }
        if current[j] in q.able {
          var c := Consumed(q.consumer, current[j], next);
          var made := if peers[i] in announcement then announcement[peers[i]] else [];
          announcement := announcement[peers[i] := made + [c]];
          assert (news + [News(peers[i], c)])[..|news|] == news;
          news := news + [News(peers[i], c)];
          consumed' := consumed' + [c];
          consumers' := consumers' + {next};
          next := next + 1;
        }
      }
      assert current[..|current|] == current;
    }
    assert peers[..|peers|] == peers;
    ok := true;
  }

  /** The loop of `consume_movement`, and of `consume_event` over the event producers. */
  method ConsumeData(q: Request, listed: map<Peer, ProducerId>, peers: seq<Peer>,
                     consumed: seq<Consumed>, consumers: set<ConsumerId>, first: ConsumerId)
    returns (consumed': seq<Consumed>, consumers': set<ConsumerId>, ok: bool, announcement: map<Peer, Consumed>)
    ensures var end := AfterAllData(q, DataProgress(consumed, consumers, map[], first, true), listed, peers);
      && consumed' == end.records && consumers' == end.consumers && ok == end.ok
      && announcement == if end.ok then end.news else map[]
  {
    ghost var start := DataProgress(consumed, consumers, map[], first, true);
    var next := first;
    consumed', consumers', announcement := consumed, consumers, map[];
    for i := 0 to |peers|
      invariant DataProgress(consumed', consumers', announcement, next, true) ==
        AfterAllData(q, start, listed, peers[..i])
    {
      assert peers[..i + 1][..i] == peers[..i];
      if peers[i] !in listed || !q.reachable {
        continue;
      }
      if listed[peers[i]] in q.fails {
        StoppedData(q, start, listed, peers, i + 1);
        return consumed', consumers', false, map[];
      }
      var c := Consumed(q.consumer, listed[peers[i]], next);
      consumed' := consumed' + [c];
      announcement := announcement[peers[i] := c];
      consumers' := consumers' + {next};
      next := next + 1;
    }
    assert peers[..|peers|] == peers;
    ok := true;
  }

  /** The maps and lists are locked together where a handler needs several, so they are the
      components of one field. */
  class PeerLedger {
    var books: Books

    constructor ()
      ensures books == Empty
    {
      books := Empty;
    }

    method ConsumeAudio(consumer: Peer, peers: seq<Peer>, routers: set<RouterId>, able: set<ProducerId>,
        fails: set<ProducerId>, next: ConsumerId)
      returns (ok: bool, announcement: map<Peer, seq<Consumed>>)
      modifies this
      ensures var end := AudioRequest(old(books), next, Call.ConsumeAudio(consumer, peers, routers, able, fails));
        && books == AudioConsumed(old(books), end)
        && ok == end.ok && announcement == if ok then Announcement(end.news) else map[]
    {
      var q := Request(consumer, Reachable(books, routers, consumer), able, fails);
      var consumed, consumers;
      consumed, consumers, ok, announcement :=
        ConsumeMedia(q, books.audio, peers, books.audioConsumed, books.consumers, next);
      books := books.(audioConsumed := consumed, consumers := consumers);
    }

    method ConsumeVideo(consumer: Peer, peers: seq<Peer>, routers: set<RouterId>, able: set<ProducerId>,
        fails: set<ProducerId>, next: ConsumerId)
      returns (ok: bool, announcement: map<Peer, seq<Consumed>>)
      modifies this
      ensures var end := VideoRequest(old(books), next, Call.ConsumeVideo(consumer, peers, routers, able, fails));
        && books == VideoConsumed(old(books), end)
        && ok == end.ok && announcement == if ok then Announcement(end.news) else map[]
    {
      var q := Request(consumer, Reachable(books, routers, consumer), able, fails);
      var consumed, consumers;
      consumed, consumers, ok, announcement :=
        ConsumeMedia(q, books.video, peers, books.videoConsumed, books.consumers, next);
      books := books.(videoConsumed := consumed, consumers := consumers);
    }

    method ConsumeMovement(consumer: Peer, peers: seq<Peer>, fails: set<ProducerId>, next: ConsumerId)
      returns (ok: bool, announcement: map<Peer, Consumed>)
      modifies this
      ensures var end := MovementRequest(old(books), next, Call.ConsumeMovement(consumer, peers, fails));
        && books == MovementConsumed(old(books), end)
        && ok == end.ok && announcement == if ok then end.news else map[]
    {
      var q := Request(consumer, consumer in books.transports, {}, fails);
      var consumed, consumers;
      consumed, consumers, ok, announcement :=
        ConsumeData(q, books.movement, peers, books.movementConsumed, books.dataConsumers, next);
      books := books.(movementConsumed := consumed, dataConsumers := consumers);
    }

    method ConsumeEvents(consumer: Peer, peers: seq<Peer>, fails: set<ProducerId>, next: ConsumerId)
      returns (ok: bool, announcement: map<Peer, Consumed>)
      modifies this
      ensures var end := EventRequest(old(books), next, Call.ConsumeEvents(consumer, peers, fails));
        && books == EventsConsumed(old(books), end)
        && ok == end.ok && announcement == if ok then end.news else map[]
    {
      var q := Request(consumer, consumer in books.transports, {}, fails);
      var consumed, consumers;
      consumed, consumers, ok, announcement :=
        ConsumeData(q, books.events, peers, books.eventConsumed, books.dataConsumers, next);
      books := books.(eventConsumed := consumed, dataConsumers := consumers);
    }

    /** `producerClose`. */
    method CloseProducer(p: Peer, id: ProducerId, known: bool)
      modifies this
      ensures books == ProducerClosed(old(books), p, id, known)
    {
      if known && p in books.video {
        books := books.(video := books.video[p := Unlisted(books.video[p], id)]);
      }
    }

    method Produce(isAudio: bool, p: Peer, id: ProducerId) returns (ok: bool)
      modifies this
      ensures books == Produced(old(books), isAudio, p, id) && ok == (id !in old(books).producers)
    {
      if id in books.producers {
        return false;
      }
      if isAudio {
        books := books.(audio := Listed(books.audio, p, id));
      } else {
        books := books.(video := Listed(books.video, p, id));
      }
      books := books.(producers := books.producers + {id});
      return true;
    }

    method ProduceData(channel: Label, p: Peer, id: ProducerId) returns (ok: bool)
      modifies this
      ensures books == DataProduced(old(books), channel, p, id)
      ensures ok == (p !in old(books).events && id !in old(books).dataProducers && channel != Other)
    {
      if p in books.events || id in books.dataProducers {
        return false;
      }
      match channel {
        case FrameEvents => books := books.(events := books.events[p := id]);
        case AvatarMovement => books := books.(movement := books.movement[p := id]);
        case Other => return false;
      }
      books := books.(dataProducers := books.dataProducers + {id});
      return true;
    }

    method Open(p: Peer, t: TransportId, r: RouterId)
      modifies this
      ensures books == Opened(old(books), p, t, r)
    {
      books := books.(transports := books.transports[p := t]);
      books := books.(routerOf := books.routerOf[t := r]);
      books := books.(endpoints := books.endpoints[t := p]);
    }

    method Closed(t: TransportId)
      modifies this
      ensures books == TransportClosed(old(books), t)
    {
      books := books.(routerOf := books.routerOf - {t});
      books := books.(endpoints := books.endpoints - {t});
    }

    /** `disconnectTransport`. */
    method DisconnectTransport(p: Peer)
      modifies this
      ensures books == Disconnected(old(books), p)
    {
      books := DropPeer(books, p);
    }
  }

  method DropPeer(b: Books, p: Peer) returns (b': Books)
    ensures b' == Disconnected(b, p)
  {
    var audio, producers := DropListed(b.audio, b.producers, p);
    var video, producers' := DropListed(b.video, producers, p);
    var movement, data := DropData(b.movement, b.dataProducers, p);
    var events, data' := DropData(b.events, data, p);
    var videoConsumed, consumers := DropRecords(b.videoConsumed, b.consumers, p);
    var audioConsumed, consumers' := DropRecords(b.audioConsumed, consumers, p);
    var movementConsumed, dataConsumers := DropRecords(b.movementConsumed, b.dataConsumers, p);
    var eventConsumed, dataConsumers' := DropRecords(b.eventConsumed, dataConsumers, p);
    var loads := b.loads;
    if p in b.transports {
      var t := b.transports[p];
      if t in b.routerOf {
        var r := b.routerOf[t];
        if r in b.workerOf {
          loads := LoadRemove(loads, b.workerOf[r]);
        }
      }
    }
    b' := b.(audio := audio, video := video, producers := producers',
             movement := movement, events := events, dataProducers := data',
             videoConsumed := videoConsumed, audioConsumed := audioConsumed, consumers := consumers',
             movementConsumed := movementConsumed, eventConsumed := eventConsumed, dataConsumers := dataConsumers',
             transports := b.transports - {p}, loads := loads);
  }

  /** The producers of a peer go one by one, and then its list. */
  method DropListed(listed: map<Peer, seq<ProducerId>>, producers: set<ProducerId>, p: Peer)
    returns (listed': map<Peer, seq<ProducerId>>, left: set<ProducerId>)
    ensures listed' == listed - {p} && left == producers - ListedIds(listed, p)
  {
    listed', left := listed, producers;
    if p in listed {
      left := RemoveProducers(producers, listed[p]);
      listed' := listed - {p};
    }
  }

  method DropData(listed: map<Peer, ProducerId>, producers: set<ProducerId>, p: Peer)
    returns (listed': map<Peer, ProducerId>, left: set<ProducerId>)
    ensures listed' == listed - {p} && left == producers - DataId(listed, p)
  {
    listed', left := listed, producers;
    if p in listed {
      left := producers - {listed[p]};
      listed' := listed - {p};
    }
  }

  /** The consumers that a peer's records name go one by one, and then the records. */
  method DropRecords(consumed: seq<Consumed>, consumers: set<ConsumerId>, p: Peer)
    returns (consumed': seq<Consumed>, left: set<ConsumerId>)
    ensures consumed' == NotOfPeer(consumed, p) && left == consumers - Ids(OfPeer(consumed, p))
  {
    NothingOf(consumed, p);
    consumed', left := consumed, consumers;
    if OfPeer(consumed, p) != [] {
      left := RemoveConsumers(consumers, OfPeer(consumed, p));
      consumed' := NotOfPeer(consumed, p);
    }
  }

  method RemoveProducers(producers: set<ProducerId>, ids: seq<ProducerId>) returns (left: set<ProducerId>)
    ensures left == producers - set id | id in ids
  {
    left := producers;
    for k := 0 to |ids|
      invariant left == producers - set id | id in ids[..k]
    {
      assert ids[..k + 1] == ids[..k] + [ids[k]];
      left := left - {ids[k]};
    }
    assert ids[..|ids|] == ids;
  }

  method RemoveConsumers(consumers: set<ConsumerId>, cs: seq<Consumed>) returns (left: set<ConsumerId>)
    ensures left == consumers - Ids(cs)
  {
    left := consumers;
    for k := 0 to |cs|
      invariant left == consumers - Ids(cs[..k])
    {
      IdsOfSum(cs[..k], [cs[k]]);
      assert cs[..k + 1] == cs[..k] + [cs[k]];
      left := left - {cs[k].consumer};
    }
    assert cs[..|cs|] == cs;
  }

  lemma {:induction false} NothingOf(cs: seq<Consumed>, p: Peer)
    ensures OfPeer(cs, p) == [] ==> NotOfPeer(cs, p) == cs && Ids(OfPeer(cs, p)) == {}
  {
    if cs != [] {
      NothingOf(cs[1..], p);
    }
  }

  lemma {:induction false} StoppedData(q: Request, s: DataProgress, producers: map<Peer, ProducerId>,
      peers: seq<Peer>, k: nat)
    requires k <= |peers| && !AfterAllData(q, s, producers, peers[..k]).ok
    ensures AfterAllData(q, s, producers, peers) == AfterAllData(q, s, producers, peers[..k])
    decreases |peers| - k
  {
    if k == |peers| {
      assert peers[..k] == peers;
    } else {
      assert peers[..k + 1][..k] == peers[..k];
      StoppedData(q, s, producers, peers, k + 1);
    }
  }
}

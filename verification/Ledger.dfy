/** The books that an egress server keeps of who produces and who consumes what, as values. */
module Ledger {
  import opened Sfu

  type Peer = nat
  type ProducerId = nat
  type ConsumerId = nat

  /** One entry of `peerconsumed`, `peeraudioconsumed`, `peermovementconsumed` or `peerdataconsumed`. */
  datatype Consumed = Consumed(peer: Peer, producer: ProducerId, consumer: ConsumerId)

  /** One entry of an announcement: `record` was made because producer peer `about` was asked for. */
  datatype News = News(about: Peer, record: Consumed)

  datatype Books = Books(
    audio: map<Peer, seq<ProducerId>>, video: map<Peer, seq<ProducerId>>, producers: set<ProducerId>,
    audioConsumed: seq<Consumed>, videoConsumed: seq<Consumed>, consumers: set<ConsumerId>,
    movement: map<Peer, ProducerId>, events: map<Peer, ProducerId>, dataProducers: set<ProducerId>,
    movementConsumed: seq<Consumed>, eventConsumed: seq<Consumed>, dataConsumers: set<ConsumerId>,
    transports: map<Peer, TransportId>, routerOf: map<TransportId, RouterId>, endpoints: map<TransportId, Peer>,
    workerOf: map<RouterId, WorkerId>, loads: map<WorkerId, nat>)

  function Ids(cs: seq<Consumed>): set<ConsumerId> {
    set c | c in cs :: c.consumer
  }

  function OfPeer(cs: seq<Consumed>, p: Peer): (f: seq<Consumed>)
    ensures forall c :: c in f <==> c in cs && c.peer == p
  {
    if cs == [] then [] else (if cs[0].peer == p then [cs[0]] else []) + OfPeer(cs[1..], p)
  }

  function NotOfPeer(cs: seq<Consumed>, p: Peer): (f: seq<Consumed>)
    ensures forall c :: c in f <==> c in cs && c.peer != p
  {
    if cs == [] then [] else (if cs[0].peer != p then [cs[0]] else []) + NotOfPeer(cs[1..], p)
  }

  predicate Already(cs: seq<Consumed>, p: Peer, producer: ProducerId) {
    exists c :: c in cs && c.peer == p && c.producer == producer
  }

  function Records(news: seq<News>): (cs: seq<Consumed>)
    ensures |cs| == |news| && forall k :: 0 <= k < |news| ==> cs[k] == news[k].record
  {
    seq(|news|, k requires 0 <= k < |news| => news[k].record)
  }

  /** The announcement sent to the client: the new consumers by producer peer. */
  function Announcement(news: seq<News>): map<Peer, seq<Consumed>> {
    if news == [] then map[]
    else
      var a := Announcement(news[..|news| - 1]);
      var n := news[|news| - 1];
      a[n.about := (if n.about in a then a[n.about] else []) + [n.record]]
  }

  // ---------------------------------------------------------------- consuming audio or video

  /** What does not change during one request: the consumer, whether its transport and router are
      there, which producers its router can consume, and for which the media library then fails. */
  datatype Request = Request(consumer: Peer, reachable: bool, able: set<ProducerId>, fails: set<ProducerId>)

  datatype Progress = Progress(records: seq<Consumed>, consumers: set<ConsumerId>, news: seq<News>, next: ConsumerId,
      ok: bool)

  function AfterOne(q: Request, s: Progress, peer: Peer, producer: ProducerId): Progress {
    if !s.ok || Already(s.records, q.consumer, producer) then s
    else if !q.reachable then s.(ok := false)
    else if producer !in q.able then s
    else if producer in q.fails then s.(ok := false)
    else
      var c := Consumed(q.consumer, producer, s.next);
      Progress(s.records + [c], s.consumers + {s.next}, s.news + [News(peer, c)], s.next + 1, true)
  }

  function AfterList(q: Request, s: Progress, peer: Peer, producers: seq<ProducerId>): Progress {
    if producers == [] then s
    else AfterOne(q, AfterList(q, s, peer, producers[..|producers| - 1]), peer, producers[|producers| - 1])
  }

  function AfterPeers(q: Request, s: Progress, listed: map<Peer, seq<ProducerId>>, peers: seq<Peer>): Progress {
    if peers == [] then s
    else
      var s1 := AfterPeers(q, s, listed, peers[..|peers| - 1]);
      var peer := peers[|peers| - 1];
      if peer in listed then AfterList(q, s1, peer, listed[peer]) else s1
  }

  predicate OncePerPair(cs: seq<Consumed>) {
    forall i, j :: 0 <= i < j < |cs| ==> cs[i].peer != cs[j].peer || cs[i].producer != cs[j].producer
  }

  /** `t` continues `s` by `more`: the same was recorded and is news, and it is new. */
  ghost predicate Continues(q: Request, s: Progress, t: Progress, more: seq<Consumed>) {
    && s.next <= t.next
    && t.records == s.records + more && Records(t.news) == Records(s.news) + more
    && t.consumers == s.consumers + Ids(more)
    && Fresh(q, s.records, more, s.next, t.next) && DistinctIds(more) && OncePerPair(more)
  }

  ghost predicate Fresh(q: Request, before: seq<Consumed>, more: seq<Consumed>, next: ConsumerId, next': ConsumerId) {
    forall c :: c in more ==>
      c.peer == q.consumer && next <= c.consumer < next' && c.producer in q.able
        && !Already(before, q.consumer, c.producer)
  }

  ghost predicate DistinctIds(cs: seq<Consumed>) {
    forall i, j :: 0 <= i < j < |cs| ==> cs[i].consumer != cs[j].consumer
  }

  lemma IdsOfSum(a: seq<Consumed>, b: seq<Consumed>)
    ensures Ids(a + b) == Ids(a) + Ids(b)
  {
    assert forall x :: x in a + b <==> x in a || x in b;
  }

  lemma RecordsOfSum(a: seq<News>, n: News)
    ensures Records(a + [n]) == Records(a) + [n.record]
  {
  }

  lemma NotAlready(s: seq<Consumed>, more: seq<Consumed>, p: Peer, producer: ProducerId)
    requires !Already(s + more, p, producer)
    ensures !Already(s, p, producer)
    ensures forall c :: c in s + more && c.peer == p ==> c.producer != producer
  {
    assert forall c :: c in s ==> c in s + more;
  }

  lemma FreshOne(q: Request, before: seq<Consumed>, more: seq<Consumed>, next: ConsumerId, next': ConsumerId,
      producer: ProducerId)
    requires next <= next' && Fresh(q, before, more, next, next') && DistinctIds(more) && OncePerPair(more)
    requires producer in q.able && !Already(before + more, q.consumer, producer)
    ensures var more' := more + [Consumed(q.consumer, producer, next')];
      Fresh(q, before, more', next, next' + 1) && DistinctIds(more') && OncePerPair(more')
  {
    NotAlready(before, more, q.consumer, producer);
    assert forall k :: 0 <= k < |more| ==> more[k] in more && more[k] in before + more;
  }

  lemma ContinuesOne(q: Request, s: Progress, t: Progress, more: seq<Consumed>, peer: Peer, producer: ProducerId)
    returns (more': seq<Consumed>)
    requires Continues(q, s, t, more)
    ensures Continues(q, s, AfterOne(q, t, peer, producer), more')
  {
    var u := AfterOne(q, t, peer, producer);
    more' := more;
    if u.records != t.records {
      var c := Consumed(q.consumer, producer, t.next);
      more' := more + [c];
      FreshOne(q, s.records, more, s.next, t.next, producer);
      RecordsOfSum(t.news, News(peer, c));
      IdsOfSum(more, [c]);
      assert u.records == s.records + more';
    }
  }

  lemma {:induction false} ContinuesList(q: Request, s: Progress, t: Progress, more: seq<Consumed>, peer: Peer,
      producers: seq<ProducerId>)
    returns (more': seq<Consumed>)
    requires Continues(q, s, t, more)
    ensures Continues(q, s, AfterList(q, t, peer, producers), more')
    decreases |producers|
  {
    more' := more;
    if producers != [] {
      var n := |producers| - 1;
      more' := ContinuesList(q, s, t, more, peer, producers[..n]);
      more' := ContinuesOne(q, s, AfterList(q, t, peer, producers[..n]), more', peer, producers[n]);
    }
  }

  /** Whatever a request recorded was new, was announced in the same order if it was announced at
      all, and has ids of its own. */
  lemma {:induction false} ContinuesPeers(q: Request, s: Progress, listed: map<Peer, seq<ProducerId>>, peers: seq<Peer>)
    returns (more: seq<Consumed>)
    ensures Continues(q, s, AfterPeers(q, s, listed, peers), more)
    decreases |peers|
  {
    more := [];
    if peers != [] {
      var n := |peers| - 1;
      more := ContinuesPeers(q, s, listed, peers[..n]);
      if peers[n] in listed {
        more := ContinuesList(q, s, AfterPeers(q, s, listed, peers[..n]), more, peers[n], listed[peers[n]]);
      }
    }
  }

  /** A consumer never gets two records for one producer. */
  lemma OnceStays(q: Request, s: Progress, t: Progress, more: seq<Consumed>)
    requires Continues(q, s, t, more) && OncePerPair(s.records)
    ensures OncePerPair(t.records)
  {
    forall i, j | 0 <= i < j < |t.records|
      ensures t.records[i].peer != t.records[j].peer || t.records[i].producer != t.records[j].producer
    {
      if i < |s.records| <= j {
        assert t.records[i] in s.records && t.records[j] in more;
      }
    }
  }

  // ---------------------------------------------------------------- nothing wanted is left out

  lemma AlreadyStays(s: seq<Consumed>, t: seq<Consumed>, p: Peer, producer: ProducerId)
    requires s <= t && Already(s, p, producer)
    ensures Already(t, p, producer)
  {
    var c :| c in s && c.peer == p && c.producer == producer;
    assert c in t;
  }

  lemma OneGrows(q: Request, s: Progress, peer: Peer, producer: ProducerId)
    ensures s.records <= AfterOne(q, s, peer, producer).records
    ensures AfterOne(q, s, peer, producer).ok ==> s.ok
    ensures AfterOne(q, s, peer, producer).ok && producer in q.able ==>
      Already(AfterOne(q, s, peer, producer).records, q.consumer, producer)
  {
    var t := AfterOne(q, s, peer, producer);
    if t.records != s.records {
      assert t.records[|s.records|] in t.records;
    }
  }

  lemma {:induction false} ListGrows(q: Request, s: Progress, peer: Peer, producers: seq<ProducerId>)
    ensures s.records <= AfterList(q, s, peer, producers).records
    ensures AfterList(q, s, peer, producers).ok ==> s.ok
    ensures AfterList(q, s, peer, producers).ok ==>
      forall x :: x in producers && x in q.able ==> Already(AfterList(q, s, peer, producers).records, q.consumer, x)
  {
    if producers != [] {
      var n := |producers| - 1;
      var t := AfterList(q, s, peer, producers[..n]);
      var u := AfterList(q, s, peer, producers);
      ListGrows(q, s, peer, producers[..n]);
      OneGrows(q, t, peer, producers[n]);
      if u.ok {
        forall x | x in producers && x in q.able ensures Already(u.records, q.consumer, x) {
          if x in producers[..n] {
            AlreadyStays(t.records, u.records, q.consumer, x);
          }
        }
      }
    }
  }

  /** When the request succeeds, each producer of the peers asked for that can be consumed is
      recorded for the consumer, now or before. */
  lemma {:induction false} PeersGrow(q: Request, s: Progress, listed: map<Peer, seq<ProducerId>>, peers: seq<Peer>)
    ensures s.records <= AfterPeers(q, s, listed, peers).records
    ensures AfterPeers(q, s, listed, peers).ok ==> s.ok
    ensures AfterPeers(q, s, listed, peers).ok ==>
      forall p, x :: p in peers && p in listed && x in listed[p] && x in q.able ==>
        Already(AfterPeers(q, s, listed, peers).records, q.consumer, x)
  {
    if peers != [] {
      var n := |peers| - 1;
      var t, u := AfterPeers(q, s, listed, peers[..n]), AfterPeers(q, s, listed, peers);
      PeersGrow(q, s, listed, peers[..n]);
      if peers[n] in listed {
        ListGrows(q, t, peers[n], listed[peers[n]]);
      }
      if u.ok {
        forall p, x | p in peers && p in listed && x in listed[p] && x in q.able
          ensures Already(u.records, q.consumer, x)
        {
          if p in peers[..n] {
            AlreadyStays(t.records, u.records, q.consumer, x);
          }
        }
      }
    }
  }

  /** After a failure nothing more happens. */
  lemma {:induction false} StoppedList(q: Request, s: Progress, peer: Peer, producers: seq<ProducerId>, k: nat)
    requires k <= |producers| && !AfterList(q, s, peer, producers[..k]).ok
    ensures AfterList(q, s, peer, producers) == AfterList(q, s, peer, producers[..k])
    decreases |producers| - k
  {
    if k == |producers| {
      assert producers[..k] == producers;
    } else {
      assert producers[..k + 1][..k] == producers[..k];
      StoppedList(q, s, peer, producers, k + 1);
    }
  }

  lemma {:induction false} ListStopped(q: Request, s: Progress, peer: Peer, producers: seq<ProducerId>)
    requires !s.ok
    ensures AfterList(q, s, peer, producers) == s
  {
    if producers != [] {
      ListStopped(q, s, peer, producers[..|producers| - 1]);
    }
  }

  lemma {:induction false} StoppedPeers(q: Request, s: Progress, listed: map<Peer, seq<ProducerId>>, peers: seq<Peer>,
      k: nat)
    requires k <= |peers| && !AfterPeers(q, s, listed, peers[..k]).ok
    ensures AfterPeers(q, s, listed, peers) == AfterPeers(q, s, listed, peers[..k])
    decreases |peers| - k
  {
    if k == |peers| {
      assert peers[..k] == peers;
    } else {
      assert peers[..k + 1][..k] == peers[..k];
      if peers[k] in listed {
        ListStopped(q, AfterPeers(q, s, listed, peers[..k]), peers[k], listed[peers[k]]);
      }
      StoppedPeers(q, s, listed, peers, k + 1);
    }
  }

  /** Who stops at producer `j` of peer `i` ends as it is then. */
  lemma StoppedAt(q: Request, s: Progress, listed: map<Peer, seq<ProducerId>>, peers: seq<Peer>, i: nat, j: nat)
    requires i < |peers| && peers[i] in listed && j < |listed[peers[i]]|
    requires !AfterList(q, AfterPeers(q, s, listed, peers[..i]), peers[i], listed[peers[i]][..j + 1]).ok
    ensures AfterPeers(q, s, listed, peers)
         == AfterList(q, AfterPeers(q, s, listed, peers[..i]), peers[i], listed[peers[i]][..j + 1])
  {
    StoppedList(q, AfterPeers(q, s, listed, peers[..i]), peers[i], listed[peers[i]], j + 1);
    assert peers[..i + 1][..i] == peers[..i];
    StoppedPeers(q, s, listed, peers, i + 1);
  }

  /** What a failed request recorded is never announced by a later one, however often the client
      asks: every record left behind keeps its producer from being announced. */
  lemma LeftBehind(q: Request, s: Progress, listed: map<Peer, seq<ProducerId>>, peers: seq<Peer>, c: Consumed)
    requires c in s.records && c.peer == q.consumer
    ensures var t := AfterPeers(q, s, listed, peers);
      forall k :: |s.news| <= k < |t.news| ==> t.news[k].record.producer != c.producer
  {
    var t := AfterPeers(q, s, listed, peers);
    var more := ContinuesPeers(q, s, listed, peers);
    forall k | |s.news| <= k < |t.news| ensures t.news[k].record.producer != c.producer {
      assert Records(t.news)[k] == more[k - |s.news|];
      assert more[k - |s.news|] in more;
    }
  }

  // ---------------------------------------------------------------- the other handlers

  /** `create` of `AudioProducers` or `VideoProducers`. */
  function Listed(m: map<Peer, seq<ProducerId>>, p: Peer, id: ProducerId): map<Peer, seq<ProducerId>> {
    m[p := (if p in m then m[p] else []) + [id]]
  }

  datatype DataProgress = DataProgress(records: seq<Consumed>, consumers: set<ConsumerId>, news: map<Peer, Consumed>,
      next: ConsumerId, ok: bool)

  /** One step of `consume_movement`, which asks neither whether it was done before nor what the
      router can do. */
  function AfterData(q: Request, s: DataProgress, producers: map<Peer, ProducerId>, peer: Peer): DataProgress {
    if !s.ok || peer !in producers || !q.reachable then s
    else if producers[peer] in q.fails then s.(ok := false)
    else
      var c := Consumed(q.consumer, producers[peer], s.next);
      DataProgress(s.records + [c], s.consumers + {s.next}, s.news[peer := c], s.next + 1, true)
  }

  function AfterAllData(q: Request, s: DataProgress, producers: map<Peer, ProducerId>, peers: seq<Peer>): DataProgress {
    if peers == [] then s
    else AfterData(q, AfterAllData(q, s, producers, peers[..|peers| - 1]), producers, peers[|peers| - 1])
  }

  function ListedIds(m: map<Peer, seq<ProducerId>>, p: Peer): set<ProducerId> {
    if p in m then set id | id in m[p] else {}
  }

  function DataId(m: map<Peer, ProducerId>, p: Peer): set<ProducerId> {
    if p in m then {m[p]} else {}
  }

  /** The worker loads once the peer's transport is taken off its worker. */
  function Unloaded(loads: map<WorkerId, nat>, transports: map<Peer, TransportId>, routerOf: map<TransportId, RouterId>,
                    workerOf: map<RouterId, WorkerId>, p: Peer): map<WorkerId, nat> {
    if p in transports && transports[p] in routerOf && routerOf[transports[p]] in workerOf
    then LoadRemove(loads, workerOf[routerOf[transports[p]]]) else loads
  }

  /** `disconnectTransport`. */
  function Disconnected(b: Books, p: Peer): Books {
    b.(audio := b.audio - {p}, video := b.video - {p},
       producers := b.producers - ListedIds(b.audio, p) - ListedIds(b.video, p),
       movement := b.movement - {p}, events := b.events - {p},
       dataProducers := b.dataProducers - DataId(b.movement, p) - DataId(b.events, p),
       consumers := b.consumers - Ids(OfPeer(b.videoConsumed, p)) - Ids(OfPeer(b.audioConsumed, p)),
       videoConsumed := NotOfPeer(b.videoConsumed, p), audioConsumed := NotOfPeer(b.audioConsumed, p),
       dataConsumers := b.dataConsumers - Ids(OfPeer(b.movementConsumed, p)) - Ids(OfPeer(b.eventConsumed, p)),
       movementConsumed := NotOfPeer(b.movementConsumed, p), eventConsumed := NotOfPeer(b.eventConsumed, p),
       transports := b.transports - {p},
       loads := Unloaded(b.loads, b.transports, b.routerOf, b.workerOf, p))
  }

  // ---------------------------------------------------------------- the invariant

  ghost predicate ConsumersAgree(a: seq<Consumed>, v: seq<Consumed>, consumers: set<ConsumerId>, next: ConsumerId) {
    && consumers == Ids(a) + Ids(v)
    && (forall id :: id in consumers ==> id < next)
    && DistinctIds(a) && DistinctIds(v) && Ids(a) !! Ids(v)
  }

  /** Every producer is listed once, and is there. */
  ghost predicate ProducersAgree(audio: map<Peer, seq<ProducerId>>, video: map<Peer, seq<ProducerId>>,
      producers: set<ProducerId>)
  {
    && (forall p, id :: p in audio && id in audio[p] ==> id in producers)
    && (forall p, id :: p in video && id in video[p] ==> id in producers)
    && (forall p, p', id :: p in audio && p' in audio && id in audio[p] && id in audio[p'] ==> p == p')
    && (forall p, p', id :: p in video && p' in video && id in video[p] && id in video[p'] ==> p == p')
    && (forall p, p', id :: p in audio && p' in video && id in audio[p] ==> id !in video[p'])
  }

  ghost predicate DataProducersAgree(movement: map<Peer, ProducerId>, events: map<Peer, ProducerId>,
      producers: set<ProducerId>)
  {
    && (forall p :: p in movement ==> movement[p] in producers)
    && (forall p :: p in events ==> events[p] in producers)
    && (forall p, p' :: p in movement && p' in movement && movement[p] == movement[p'] ==> p == p')
    && (forall p, p' :: p in events && p' in events && events[p] == events[p'] ==> p == p')
    && (forall p, p' :: p in movement && p' in events ==> movement[p] != events[p'])
  }

  /** The endpoint of a peer's transport names that peer, and has a router, while it exists. */
  ghost predicate TransportsAgree(transports: map<Peer, TransportId>, routerOf: map<TransportId, RouterId>,
      endpoints: map<TransportId, Peer>)
  {
    && (forall p :: p in transports && transports[p] in endpoints ==> endpoints[transports[p]] == p)
    && (forall p, p' :: p in transports && p' in transports && transports[p] == transports[p'] ==> p == p')
    && endpoints.Keys == routerOf.Keys
  }

  ghost predicate MediaOk(b: Books, next: ConsumerId) {
    && OncePerPair(b.audioConsumed) && OncePerPair(b.videoConsumed)
    && ConsumersAgree(b.audioConsumed, b.videoConsumed, b.consumers, next)
    && ProducersAgree(b.audio, b.video, b.producers)
  }

  ghost predicate DataOk(b: Books, next: ConsumerId) {
    && ConsumersAgree(b.movementConsumed, b.eventConsumed, b.dataConsumers, next)
    && DataProducersAgree(b.movement, b.events, b.dataProducers)
    && TransportsAgree(b.transports, b.routerOf, b.endpoints)
  }

  /** Quantified so that a proof can carry each half along as one fact. */
  ghost predicate MediaBalanced(bs: set<Books>, next: ConsumerId) {
    forall b :: b in bs ==> MediaOk(b, next)
  }

  ghost predicate DataBalanced(bs: set<Books>, next: ConsumerId) {
    forall b :: b in bs ==> DataOk(b, next)
  }

  ghost predicate Balanced(b: Books, next: ConsumerId) {
    MediaBalanced({b}, next) && DataBalanced({b}, next)
  }

  lemma Audit(b: Books, next: ConsumerId)
    requires Balanced(b, next)
    ensures MediaOk(b, next) && DataOk(b, next)
  {
    assert b in {b};
  }

  lemma SameMedia(b: Books, b': Books, next: ConsumerId, next': ConsumerId)
    requires MediaBalanced({b}, next) && next <= next'
    requires b == b'.(movement := b.movement, events := b.events, dataProducers := b.dataProducers,
                      movementConsumed := b.movementConsumed, eventConsumed := b.eventConsumed,
                      dataConsumers := b.dataConsumers,
                      transports := b.transports, routerOf := b.routerOf, endpoints := b.endpoints)
    ensures MediaBalanced({b'}, next')
  {
    assert b in {b};
    AgreeLater(b.audioConsumed, b.videoConsumed, b.consumers, next, next');
  }

  lemma SameData(b: Books, b': Books, next: ConsumerId, next': ConsumerId)
    requires DataBalanced({b}, next) && next <= next'
    requires b == b'.(audio := b.audio, video := b.video, producers := b.producers,
                      audioConsumed := b.audioConsumed, videoConsumed := b.videoConsumed, consumers := b.consumers)
    ensures DataBalanced({b'}, next')
  {
    assert b in {b};
    AgreeLater(b.movementConsumed, b.eventConsumed, b.dataConsumers, next, next');
  }

  // ---------------------------------------------------------------- every handler keeps it

  lemma DistinctSum(a: seq<Consumed>, b: seq<Consumed>)
    requires DistinctIds(a) && DistinctIds(b) && Ids(a) !! Ids(b)
    ensures DistinctIds(a + b)
  {
    forall i, j | 0 <= i < j < |a + b| ensures (a + b)[i].consumer != (a + b)[j].consumer {
      if i < |a| <= j {
        assert a[i] in a && b[j - |a|] in b;
        assert a[i].consumer in Ids(a) && b[j - |a|].consumer in Ids(b);
      }
    }
  }

  /** New records with new ids keep the two lists and the consumers together. */
  lemma AgreeWith(a: seq<Consumed>, v: seq<Consumed>, consumers: set<ConsumerId>, next: ConsumerId,
                  more: seq<Consumed>, next': ConsumerId)
    requires ConsumersAgree(a, v, consumers, next) && next <= next' && DistinctIds(more)
    requires forall c :: c in more ==> next <= c.consumer < next'
    ensures ConsumersAgree(a + more, v, consumers + Ids(more), next')
    ensures ConsumersAgree(a, v + more, consumers + Ids(more), next')
  {
    IdsOfSum(a, more);
    IdsOfSum(v, more);
    DistinctSum(a, more);
    DistinctSum(v, more);
  }

  /** The books after a request for the audio of `peers`; for video the other list grows. */
  function AudioConsumed(b: Books, t: Progress): Books {
    b.(audioConsumed := t.records, consumers := t.consumers)
  }

  function VideoConsumed(b: Books, t: Progress): Books {
    b.(videoConsumed := t.records, consumers := t.consumers)
  }

  lemma AudioKeepsBalance(b: Books, q: Request, next: ConsumerId, peers: seq<Peer>)
    requires Balanced(b, next)
    ensures var t := AfterPeers(q, Progress(b.audioConsumed, b.consumers, [], next, true), b.audio, peers);
      Balanced(AudioConsumed(b, t), t.next)
  {
    Audit(b, next);
    var s := Progress(b.audioConsumed, b.consumers, [], next, true);
    var t := AfterPeers(q, s, b.audio, peers);
    var more := ContinuesPeers(q, s, b.audio, peers);
    OnceStays(q, s, t, more);
    AgreeWith(b.audioConsumed, b.videoConsumed, b.consumers, next, more, t.next);
    SameData(b, AudioConsumed(b, t), next, t.next);
  }

  lemma VideoKeepsBalance(b: Books, q: Request, next: ConsumerId, peers: seq<Peer>)
    requires Balanced(b, next)
    ensures var t := AfterPeers(q, Progress(b.videoConsumed, b.consumers, [], next, true), b.video, peers);
      Balanced(VideoConsumed(b, t), t.next)
  {
    Audit(b, next);
    var s := Progress(b.videoConsumed, b.consumers, [], next, true);
    var t := AfterPeers(q, s, b.video, peers);
    var more := ContinuesPeers(q, s, b.video, peers);
    OnceStays(q, s, t, more);
    AgreeWith(b.audioConsumed, b.videoConsumed, b.consumers, next, more, t.next);
    SameData(b, VideoConsumed(b, t), next, t.next);
  }

  /** `t` continues `s` in the data books. */
  ghost predicate DataContinues(s: DataProgress, t: DataProgress, more: seq<Consumed>) {
    && s.next <= t.next && t.records == s.records + more
    && t.consumers == s.consumers + Ids(more)
    && DistinctIds(more) && (forall c :: c in more ==> s.next <= c.consumer < t.next)
  }

  lemma {:induction false} DataGrows(q: Request, s: DataProgress, producers: map<Peer, ProducerId>, peers: seq<Peer>)
    returns (more: seq<Consumed>)
    ensures DataContinues(s, AfterAllData(q, s, producers, peers), more)
    decreases |peers|
  {
    more := [];
    if peers != [] {
      var n := |peers| - 1;
      more := DataGrows(q, s, producers, peers[..n]);
      var t, u := AfterAllData(q, s, producers, peers[..n]), AfterAllData(q, s, producers, peers);
      if u.records != t.records {
        var c := Consumed(q.consumer, producers[peers[n]], t.next);
        IdsOfSum(more, [c]);
        assert forall k :: 0 <= k < |more| ==> more[k] in more;
        more := more + [c];
        assert u.records == s.records + more;
      }
    }
  }

  function MovementConsumed(b: Books, t: DataProgress): Books {
    b.(movementConsumed := t.records, dataConsumers := t.consumers)
  }

  lemma MovementKeepsBalance(b: Books, q: Request, next: ConsumerId, peers: seq<Peer>)
    requires Balanced(b, next)
    ensures
      var t := AfterAllData(q, DataProgress(b.movementConsumed, b.dataConsumers, map[], next, true), b.movement, peers);
      Balanced(MovementConsumed(b, t), t.next)
  {
    Audit(b, next);
    var s := DataProgress(b.movementConsumed, b.dataConsumers, map[], next, true);
    var t := AfterAllData(q, s, b.movement, peers);
    var more := DataGrows(q, s, b.movement, peers);
    AgreeWith(b.movementConsumed, b.eventConsumed, b.dataConsumers, next, more, t.next);
    SameMedia(b, MovementConsumed(b, t), next, t.next);
  }

  function EventsConsumed(b: Books, t: DataProgress): Books {
    b.(eventConsumed := t.records, dataConsumers := t.consumers)
  }

  lemma EventsKeepBalance(b: Books, q: Request, next: ConsumerId, peers: seq<Peer>)
    requires Balanced(b, next)
    ensures
      var t := AfterAllData(q, DataProgress(b.eventConsumed, b.dataConsumers, map[], next, true), b.events, peers);
      Balanced(EventsConsumed(b, t), t.next)
  {
    Audit(b, next);
    var s := DataProgress(b.eventConsumed, b.dataConsumers, map[], next, true);
    var t := AfterAllData(q, s, b.events, peers);
    var more := DataGrows(q, s, b.events, peers);
    AgreeWith(b.movementConsumed, b.eventConsumed, b.dataConsumers, next, more, t.next);
    SameMedia(b, EventsConsumed(b, t), next, t.next);
  }

  lemma AgreeLater(a: seq<Consumed>, v: seq<Consumed>, consumers: set<ConsumerId>, next: ConsumerId, next': ConsumerId)
    requires ConsumersAgree(a, v, consumers, next) && next <= next'
    ensures ConsumersAgree(a, v, consumers, next')
  {
  }

  lemma IdsOfPeer(cs: seq<Consumed>, p: Peer)
    requires DistinctIds(cs)
    ensures Ids(NotOfPeer(cs, p)) == Ids(cs) - Ids(OfPeer(cs, p))
  {
    forall c, d | c in cs && d in cs && c.consumer == d.consumer ensures c == d {
      var i :| 0 <= i < |cs| && cs[i] == c;
      var j :| 0 <= j < |cs| && cs[j] == d;
    }
  }

  lemma {:induction false} OnceWithout(cs: seq<Consumed>, p: Peer)
    requires OncePerPair(cs)
    ensures OncePerPair(NotOfPeer(cs, p))
  {
    if cs != [] {
      assert forall i :: 0 <= i < |cs[1..]| ==> cs[1..][i] == cs[i + 1];
      OnceWithout(cs[1..], p);
      var rest := NotOfPeer(cs[1..], p);
      forall i | 0 <= i < |rest| ensures rest[i].peer != cs[0].peer || rest[i].producer != cs[0].producer {
        assert rest[i] in rest && rest[i] in cs[1..];
      }
    }
  }

  lemma {:induction false} DistinctWithout(cs: seq<Consumed>, p: Peer)
    requires DistinctIds(cs)
    ensures DistinctIds(NotOfPeer(cs, p))
  {
    if cs != [] {
      assert forall i :: 0 <= i < |cs[1..]| ==> cs[1..][i] == cs[i + 1];
      DistinctWithout(cs[1..], p);
      var rest := NotOfPeer(cs[1..], p);
      forall i | 0 <= i < |rest| ensures rest[i].consumer != cs[0].consumer {
        assert rest[i] in rest && rest[i] in cs[1..];
      }
    }
  }

  lemma AgreeWithout(a: seq<Consumed>, v: seq<Consumed>, consumers: set<ConsumerId>, next: ConsumerId, p: Peer)
    requires ConsumersAgree(a, v, consumers, next)
    ensures ConsumersAgree(NotOfPeer(a, p), NotOfPeer(v, p), consumers - Ids(OfPeer(v, p)) - Ids(OfPeer(a, p)), next)
  {
    IdsOfPeer(a, p);
    IdsOfPeer(v, p);
    DistinctWithout(a, p);
    DistinctWithout(v, p);
    assert Ids(OfPeer(v, p)) <= Ids(v) && Ids(OfPeer(a, p)) <= Ids(a);
  }

  lemma ProducersWithout(b: Books, p: Peer)
    requires ProducersAgree(b.audio, b.video, b.producers)
    ensures var b' := Disconnected(b, p); ProducersAgree(b'.audio, b'.video, b'.producers)
  {
  }

  lemma DisconnectMedia(b: Books, p: Peer, next: ConsumerId)
    requires MediaBalanced({b}, next)
    ensures MediaBalanced({Disconnected(b, p)}, next)
  {
    assert b in {b};
    OnceWithout(b.audioConsumed, p);
    OnceWithout(b.videoConsumed, p);
    AgreeWithout(b.audioConsumed, b.videoConsumed, b.consumers, next, p);
    ProducersWithout(b, p);
  }

  lemma DisconnectData(b: Books, p: Peer, next: ConsumerId)
    requires DataBalanced({b}, next)
    ensures DataBalanced({Disconnected(b, p)}, next)
  {
    assert b in {b};
    AgreeWithout(b.eventConsumed, b.movementConsumed, b.dataConsumers, next, p);
  }

  lemma DisconnectKeepsBalance(b: Books, p: Peer, next: ConsumerId)
    requires Balanced(b, next)
    ensures Balanced(Disconnected(b, p), next)
  {
    DisconnectMedia(b, p, next);
    DisconnectData(b, p, next);
  }

  // ---------------------------------------------------------------- whole runs

  /** A message to an egress server, or the end of one of its transports.  `able` and `fails` are
      the media library's answers; `routers` are the server's routers at the time; `known` is whether
      the media type of a producer to close is one that the server knows. */
  datatype Call =
    | ConsumeAudio(consumer: Peer, peers: seq<Peer>, routers: set<RouterId>, able: set<ProducerId>,
                   fails: set<ProducerId>)
    | ConsumeVideo(consumer: Peer, peers: seq<Peer>, routers: set<RouterId>, able: set<ProducerId>,
                   fails: set<ProducerId>)
    | ConsumeMovement(consumer: Peer, peers: seq<Peer>, fails: set<ProducerId>)
    | ConsumeEvents(consumer: Peer, peers: seq<Peer>, fails: set<ProducerId>)
    | CloseProducer(peer: Peer, id: ProducerId, known: bool)
    | Produce(audio: bool, peer: Peer, id: ProducerId)
    | ProduceData(channel: Label, peer: Peer, id: ProducerId)
    | Open(peer: Peer, transport: TransportId, router: RouterId)
    | Closed(transport: TransportId)
    | Disconnect(peer: Peer)

  datatype Label = FrameEvents | AvatarMovement | Other

  function Reachable(b: Books, routers: set<RouterId>, p: Peer): bool {
    p in b.transports && b.transports[p] in b.routerOf && b.routerOf[b.transports[p]] in routers
  }

  function AudioRequest(b: Books, next: ConsumerId, c: Call): Progress
    requires c.ConsumeAudio?
  {
    AfterPeers(Request(c.consumer, Reachable(b, c.routers, c.consumer), c.able, c.fails),
               Progress(b.audioConsumed, b.consumers, [], next, true), b.audio, c.peers)
  }

  function VideoRequest(b: Books, next: ConsumerId, c: Call): Progress
    requires c.ConsumeVideo?
  {
    AfterPeers(Request(c.consumer, Reachable(b, c.routers, c.consumer), c.able, c.fails),
               Progress(b.videoConsumed, b.consumers, [], next, true), b.video, c.peers)
  }

  function MovementRequest(b: Books, next: ConsumerId, c: Call): DataProgress
    requires c.ConsumeMovement?
  {
    AfterAllData(Request(c.consumer, c.consumer in b.transports, {}, c.fails),
                 DataProgress(b.movementConsumed, b.dataConsumers, map[], next, true), b.movement, c.peers)
  }

  function EventRequest(b: Books, next: ConsumerId, c: Call): DataProgress
    requires c.ConsumeEvents?
  {
    AfterAllData(Request(c.consumer, c.consumer in b.transports, {}, c.fails),
                 DataProgress(b.eventConsumed, b.dataConsumers, map[], next, true), b.events, c.peers)
  }

  function Unlisted(ids: seq<ProducerId>, id: ProducerId): (f: seq<ProducerId>)
    ensures forall x :: x in f <==> x in ids && x != id
  {
    if ids == [] then [] else (if ids[0] != id then [ids[0]] else []) + Unlisted(ids[1..], id)
  }

  /** `producerClose` looks in the list of video producers only, whatever the media type, and does
      not take the producer out of `producers`. */
  function ProducerClosed(b: Books, p: Peer, id: ProducerId, known: bool): Books {
    if known && p in b.video then b.(video := b.video[p := Unlisted(b.video[p], id)]) else b
  }

  /** A relayed producer; the media library refuses an id that it has already. */
  function Produced(b: Books, audio: bool, p: Peer, id: ProducerId): Books {
    if id in b.producers then b
    else
      var listed := if audio then b.(audio := Listed(b.audio, p, id)) else b.(video := Listed(b.video, p, id));
      listed.(producers := listed.producers + {id})
  }

  /** A relayed data producer: refused for any label once the peer has an event producer. */
  function DataProduced(b: Books, channel: Label, p: Peer, id: ProducerId): Books {
    if p in b.events || id in b.dataProducers then b
    else match channel
      case FrameEvents => b.(events := b.events[p := id], dataProducers := b.dataProducers + {id})
      case AvatarMovement => b.(movement := b.movement[p := id], dataProducers := b.dataProducers + {id})
      case Other => b
  }

  function Opened(b: Books, p: Peer, t: TransportId, r: RouterId): Books {
    b.(transports := b.transports[p := t], routerOf := b.routerOf[t := r], endpoints := b.endpoints[t := p])
  }

  function TransportClosed(b: Books, t: TransportId): Books {
    b.(routerOf := b.routerOf - {t}, endpoints := b.endpoints - {t})
  }

  function Handle(b: Books, next: ConsumerId, c: Call): (Books, ConsumerId) {
    match c
    case ConsumeAudio(_, _, _, _, _) => var t := AudioRequest(b, next, c); (AudioConsumed(b, t), t.next)
    case ConsumeVideo(_, _, _, _, _) => var t := VideoRequest(b, next, c); (VideoConsumed(b, t), t.next)
    case ConsumeMovement(_, _, _) => var t := MovementRequest(b, next, c); (MovementConsumed(b, t), t.next)
    case ConsumeEvents(_, _, _) => var t := EventRequest(b, next, c); (EventsConsumed(b, t), t.next)
    case CloseProducer(p, id, known) => (ProducerClosed(b, p, id, known), next)
    case Produce(audio, p, id) => (Produced(b, audio, p, id), next)
    case ProduceData(channel, p, id) => (DataProduced(b, channel, p, id), next)
    case Open(p, t, r) => (Opened(b, p, t, r), next)
    case Closed(t) => (TransportClosed(b, t), next)
    case Disconnect(p) => (Disconnected(b, p), next)
  }

  /** Transport ids are new. */
  predicate Possible(b: Books, c: Call) {
    c.Open? ==> c.transport !in b.transports.Values && c.transport !in b.endpoints
  }

  lemma ProduceKeepsBalance(b: Books, audio: bool, p: Peer, id: ProducerId, next: ConsumerId)
    requires Balanced(b, next)
    ensures Balanced(Produced(b, audio, p, id), next)
  {
    ProducedMedia(b, audio, p, id, next);
    SameData(b, Produced(b, audio, p, id), next, next);
  }

  lemma ProducedMedia(b: Books, audio: bool, p: Peer, id: ProducerId, next: ConsumerId)
    requires MediaBalanced({b}, next)
    ensures MediaBalanced({Produced(b, audio, p, id)}, next)
  {
    assert b in {b};
    if id !in b.producers {
      if audio {
        AudioProduced(b, p, id, next);
      } else {
        VideoProduced(b, p, id, next);
      }
    }
  }

  lemma AudioProduced(b: Books, p: Peer, id: ProducerId, next: ConsumerId)
    requires MediaOk(b, next) && id !in b.producers
    ensures MediaOk(b.(audio := Listed(b.audio, p, id), producers := b.producers + {id}), next)
  {
  }

  lemma VideoProduced(b: Books, p: Peer, id: ProducerId, next: ConsumerId)
    requires MediaOk(b, next) && id !in b.producers
    ensures MediaOk(b.(video := Listed(b.video, p, id), producers := b.producers + {id}), next)
  {
  }

  lemma CloseProducerKeepsBalance(b: Books, p: Peer, id: ProducerId, known: bool, next: ConsumerId)
    requires Balanced(b, next)
    ensures Balanced(ProducerClosed(b, p, id, known), next)
  {
    Audit(b, next);
    ClosedAgree(b, p, id, known);
    SameData(b, ProducerClosed(b, p, id, known), next, next);
  }

  lemma ClosedAgree(b: Books, p: Peer, id: ProducerId, known: bool)
    requires ProducersAgree(b.audio, b.video, b.producers)
    ensures var b' := ProducerClosed(b, p, id, known); ProducersAgree(b'.audio, b'.video, b'.producers)
  {
  }

  lemma HandleKeepsBalance(b: Books, next: ConsumerId, c: Call)
    requires Balanced(b, next) && Possible(b, c)
    ensures Balanced(Handle(b, next, c).0, Handle(b, next, c).1)
  {
    match c
    case ConsumeAudio(p, peers, routers, able, fails) =>
      AudioKeepsBalance(b, Request(p, Reachable(b, routers, p), able, fails), next, peers);
    case ConsumeVideo(p, peers, routers, able, fails) =>
      VideoKeepsBalance(b, Request(p, Reachable(b, routers, p), able, fails), next, peers);
    case ConsumeMovement(p, peers, fails) =>
      MovementKeepsBalance(b, Request(p, p in b.transports, {}, fails), next, peers);
    case ConsumeEvents(p, peers, fails) => EventsKeepBalance(b, Request(p, p in b.transports, {}, fails), next, peers);
    case CloseProducer(p, id, known) => CloseProducerKeepsBalance(b, p, id, known, next);
    case Produce(audio, p, id) => ProduceKeepsBalance(b, audio, p, id, next);
    case ProduceData(channel, p, id) => ProduceDataKeepsBalance(b, channel, p, id, next);
    case Open(p, t, r) => OpenKeepsBalance(b, p, t, r, next);
    case Closed(t) => CloseKeepsBalance(b, t, next);
    case Disconnect(p) => DisconnectKeepsBalance(b, p, next);
  }

  lemma ProduceDataKeepsBalance(b: Books, channel: Label, p: Peer, id: ProducerId, next: ConsumerId)
    requires Balanced(b, next)
    ensures Balanced(DataProduced(b, channel, p, id), next)
  {
    Audit(b, next);
    DataProducedAgree(b, channel, p, id);
    SameMedia(b, DataProduced(b, channel, p, id), next, next);
  }

  lemma DataProducedAgree(b: Books, channel: Label, p: Peer, id: ProducerId)
    requires DataProducersAgree(b.movement, b.events, b.dataProducers)
    ensures var b' := DataProduced(b, channel, p, id); DataProducersAgree(b'.movement, b'.events, b'.dataProducers)
  {
  }

  lemma CloseKeepsBalance(b: Books, t: TransportId, next: ConsumerId)
    requires Balanced(b, next)
    ensures Balanced(TransportClosed(b, t), next)
  {
    Audit(b, next);
    SameMedia(b, TransportClosed(b, t), next, next);
  }

  lemma OpenKeepsBalance(b: Books, p: Peer, t: TransportId, r: RouterId, next: ConsumerId)
    requires Balanced(b, next) && t !in b.transports.Values && t !in b.endpoints
    ensures Balanced(Opened(b, p, t, r), next)
  {
    Audit(b, next);
    assert forall p' :: p' in b.transports ==> b.transports[p'] in b.transports.Values;
    SameMedia(b, Opened(b, p, t, r), next, next);
  }

  const Empty := Books(map[], map[], {}, [], [], {}, map[], map[], {}, [], [], {}, map[], map[], map[], map[], map[])

  ghost predicate Run(trace: seq<(Books, ConsumerId)>, calls: seq<Call>) {
    && |trace| == |calls| + 1 && trace[0] == (Empty, 0)
    && (forall k :: 0 <= k < |calls| ==>
      Possible(trace[k].0, calls[k]) && trace[k + 1] == Handle(trace[k].0, trace[k].1, calls[k]))
  }

  /** The books of an egress server always balance: no pair is recorded twice for audio or video,
      the consumers are exactly the ones recorded, and every producer listed exists. */
  lemma {:induction false} BooksBalance(trace: seq<(Books, ConsumerId)>, calls: seq<Call>, k: nat)
    requires Run(trace, calls) && k < |trace|
    ensures Balanced(trace[k].0, trace[k].1)
  {
    if k == 0 {
      assert Ids([]) == {};
    } else {
      BooksBalance(trace, calls, k - 1);
      HandleKeepsBalance(trace[k - 1].0, trace[k - 1].1, calls[k - 1]);
      assert trace[(k - 1) + 1] == Handle(trace[k - 1].0, trace[k - 1].1, calls[k - 1]);
    }
  }

  // ---------------------------------------------------------------- producers that nobody lists

  type Lists = map<Peer, seq<ProducerId>>

  ghost predicate IsIn(lists: Lists, id: ProducerId) {
    exists p :: p in lists && id in lists[p]
  }

  ghost predicate IsListed(b: Books, id: ProducerId) {
    IsIn(b.audio, id) || IsIn(b.video, id)
  }

  /** There, but in nobody's list, so that no disconnect can remove it. */
  ghost predicate Orphan(b: Books, id: ProducerId) {
    id in b.producers && !IsListed(b, id)
  }

  /** A close request that finds the producer in the peer's video list. */
  predicate Orphans(b: Books, c: Call) {
    c.CloseProducer? && c.known && c.peer in b.video && c.id in b.video[c.peer]
  }

  lemma ListedIsIn(lists: Lists, p: Peer, id: ProducerId, x: ProducerId)
    ensures IsIn(Listed(lists, p, id), x) <==> x == id || IsIn(lists, x)
  {
    var lists' := Listed(lists, p, id);
    assert id in lists'[p];
    forall q | q in lists && x in lists[q] ensures q in lists' && x in lists'[q] {
    }
  }

  lemma RemovedIsIn(lists: Lists, p: Peer, x: ProducerId)
    requires forall q, q' :: q in lists && q' in lists && x in lists[q] && x in lists[q'] ==> q == q'
    ensures IsIn(lists - {p}, x) <==> IsIn(lists, x) && x !in ListedIds(lists, p)
  {
    forall q | q in lists && q != p && x in lists[q] ensures q in lists - {p} && x in (lists - {p})[q] {
    }
  }

  lemma UnlistedIsIn(lists: Lists, p: Peer, id: ProducerId, x: ProducerId)
    requires p in lists && forall q, q' :: q in lists && q' in lists && x in lists[q] && x in lists[q'] ==> q == q'
    ensures IsIn(lists[p := Unlisted(lists[p], id)], x) <==> IsIn(lists, x) && !(x == id && id in lists[p])
  {
    var lists' := lists[p := Unlisted(lists[p], id)];
    forall q | q in lists && x in lists[q] && !(x == id && id in lists[p]) ensures q in lists' && x in lists'[q] {
    }
  }

  ghost predicate SameLists(b: Books, b': Books) {
    b'.audio == b.audio && b'.video == b.video && b'.producers == b.producers
  }

  lemma ConsumeLists(b: Books, c: Call, next: ConsumerId)
    requires c.ConsumeAudio? || c.ConsumeVideo?
    ensures SameLists(b, Handle(b, next, c).0)
  {
  }

  lemma DataLists(b: Books, c: Call, next: ConsumerId)
    requires c.ConsumeMovement? || c.ConsumeEvents?
    ensures SameLists(b, Handle(b, next, c).0)
  {
  }

  lemma ChannelLists(b: Books, channel: Label, p: Peer, id: ProducerId)
    ensures SameLists(b, DataProduced(b, channel, p, id))
  {
    var b' := DataProduced(b, channel, p, id);
    assert b' == b.(events := b'.events, movement := b'.movement, dataProducers := b'.dataProducers);
  }

  lemma TransportLists(b: Books, c: Call, next: ConsumerId)
    requires c.Open? || c.Closed?
    ensures SameLists(b, Handle(b, next, c).0)
  {
  }

  /** Calls that leave the lists of producers alone. */
  lemma OtherLists(b: Books, c: Call, next: ConsumerId)
    requires !c.Produce? && !c.CloseProducer? && !c.Disconnect?
    ensures SameLists(b, Handle(b, next, c).0)
  {
    if c.ConsumeAudio? || c.ConsumeVideo? {
      ConsumeLists(b, c, next);
    } else if c.Open? || c.Closed? {
      TransportLists(b, c, next);
    } else if c.ProduceData? {
      ChannelLists(b, c.channel, c.peer, c.id);
    } else {
      DataLists(b, c, next);
    }
  }

  lemma DisconnectLists(b: Books, c: Call, next: ConsumerId)
    requires c.Disconnect?
    ensures var b' := Handle(b, next, c).0;
      && b'.audio == b.audio - {c.peer} && b'.video == b.video - {c.peer}
      && b'.producers == b.producers - ListedIds(b.audio, c.peer) - ListedIds(b.video, c.peer)
  {
  }

  lemma ProduceLists(b: Books, c: Call, next: ConsumerId)
    requires c.Produce? && c.id !in b.producers
    ensures var b' := Handle(b, next, c).0;
      && b'.audio == (if c.audio then Listed(b.audio, c.peer, c.id) else b.audio)
      && b'.video == (if c.audio then b.video else Listed(b.video, c.peer, c.id))
      && b'.producers == b.producers + {c.id}
  {
  }

  lemma CloseLists(b: Books, c: Call, next: ConsumerId)
    requires c.CloseProducer?
    ensures var b' := Handle(b, next, c).0;
      && b'.audio == b.audio && b'.producers == b.producers
      && b'.video == (if c.known && c.peer in b.video then b.video[c.peer := Unlisted(b.video[c.peer], c.id)]
                      else b.video)
  {
  }

  /** What a call does to the place of one producer. */
  lemma PlaceAfter(b: Books, c: Call, next: ConsumerId, id: ProducerId)
    requires ProducersAgree(b.audio, b.video, b.producers)
    ensures var b' := Handle(b, next, c).0;
      && (id in b'.producers && id !in b.producers ==> IsListed(b', id))
      && (id in b'.producers && IsListed(b, id) ==> (IsListed(b', id) <==> !(Orphans(b, c) && c.id == id)))
      && (Orphan(b, id) ==> Orphan(b', id))
  {
    match c
    case Produce(audio, p, made) =>
      if made !in b.producers {
        ProduceLists(b, c, next);
        ListedIsIn(if audio then b.audio else b.video, p, made, id);
      }
    case CloseProducer(p, closed, known) =>
      CloseLists(b, c, next);
      if known && p in b.video {
        UnlistedIsIn(b.video, p, closed, id);
        assert Orphans(b, c) && c.id == id ==> !IsIn(b.audio, id);
      }
    case Disconnect(p) =>
      DisconnectLists(b, c, next);
      RemovedIsIn(b.audio, p, id);
      RemovedIsIn(b.video, p, id);
    case _ => OtherLists(b, c, next);
  }

  /** Whatever there is stays in somebody's list exactly if no close request finds its producer. */
  lemma HandleOrphansIff(b: Books, c: Call, next: ConsumerId)
    requires Balanced(b, next) && forall id :: id in b.producers ==> IsListed(b, id)
    ensures (forall id :: id in Handle(b, next, c).0.producers ==> IsListed(Handle(b, next, c).0, id)) <==>
      !Orphans(b, c)
  {
    Audit(b, next);
    var b' := Handle(b, next, c).0;
    forall id | id in b'.producers ensures IsListed(b', id) <==> !(Orphans(b, c) && c.id == id) {
      PlaceAfter(b, c, next, id);
    }
    if Orphans(b, c) {
      CloseLists(b, c, next);
      assert c.id in b'.producers;
    }
  }

  /** In every state of a run without such a close, the producers are exactly the ones listed; from
      the first such close on, its producer stays for good. */
  lemma {:induction false} ListedUntilClosed(trace: seq<(Books, ConsumerId)>, calls: seq<Call>, k: nat)
    requires Run(trace, calls) && k < |trace|
    requires forall j :: 0 <= j < k ==> !Orphans(trace[j].0, calls[j])
    ensures forall id :: id in trace[k].0.producers <==> IsListed(trace[k].0, id)
  {
    BooksBalance(trace, calls, k);
    Audit(trace[k].0, trace[k].1);
    if k > 0 {
      ListedUntilClosed(trace, calls, k - 1);
      BooksBalance(trace, calls, k - 1);
      HandleOrphansIff(trace[k - 1].0, calls[k - 1], trace[k - 1].1);
      assert trace[(k - 1) + 1] == Handle(trace[k - 1].0, trace[k - 1].1, calls[k - 1]);
    }
  }

  lemma {:induction false} OrphanForGood(trace: seq<(Books, ConsumerId)>, calls: seq<Call>, j: nat, k: nat)
    requires Run(trace, calls) && j < k < |trace| && Orphans(trace[j].0, calls[j])
    ensures Orphan(trace[k].0, calls[j].id)
    decreases k
  {
    if k > j + 1 {
      OrphanForGood(trace, calls, j, k - 1);
    }
    OrphanStep(trace, calls, k - 1, calls[j].id);
  }

  lemma OrphanStep(trace: seq<(Books, ConsumerId)>, calls: seq<Call>, k: nat, id: ProducerId)
    requires Run(trace, calls) && k < |calls|
    requires Orphan(trace[k].0, id) || (Orphans(trace[k].0, calls[k]) && calls[k].id == id)
    ensures Orphan(trace[k + 1].0, id)
  {
    BooksBalance(trace, calls, k);
    OrphanAfter(trace[k].0, calls[k], trace[k].1, id);
  }

  lemma OrphanAfter(b: Books, c: Call, next: ConsumerId, id: ProducerId)
    requires Balanced(b, next) && (Orphan(b, id) || (Orphans(b, c) && c.id == id))
    ensures Orphan(Handle(b, next, c).0, id)
  {
    Audit(b, next);
    PlaceAfter(b, c, next, id);
    if !Orphan(b, id) {
      CloseLists(b, c, next);
      assert IsIn(b.video, id);
    }
  }

  // ---------------------------------------------------------------- what a disconnect leaves

  ghost predicate Mentions(b: Books, p: Peer) {
    || p in b.audio || p in b.video || p in b.movement || p in b.events || p in b.transports
    || (exists c :: c in b.audioConsumed + b.videoConsumed + b.movementConsumed + b.eventConsumed && c.peer == p)
    || (exists t :: t in b.endpoints && b.endpoints[t] == p)
  }

  /** After a peer disconnected, what can still mention it are the endpoints of its transports,
      which stay until these close. */
  lemma DisconnectForgets(b: Books, p: Peer)
    ensures Mentions(Disconnected(b, p), p) <==> exists t :: t in b.endpoints && b.endpoints[t] == p
  {
  }

  /** So nothing mentions it once the transport that is recorded for it has closed, exactly if it has
      no other endpoint; a peer that opened two transports has one more. */
  lemma CloseForgets(b: Books, p: Peer)
    requires p in b.transports
    ensures Mentions(TransportClosed(Disconnected(b, p), b.transports[p]), p) <==>
      exists t :: t in b.endpoints && t != b.transports[p] && b.endpoints[t] == p
  {
    var b' := TransportClosed(Disconnected(b, p), b.transports[p]);
    if t :| t in b.endpoints && t != b.transports[p] && b.endpoints[t] == p {
      assert t in b'.endpoints && b'.endpoints[t] == p;
    }
  }

  lemma {:induction false} OfOtherPeer(cs: seq<Consumed>, p: Peer, p': Peer)
    requires p != p'
    ensures OfPeer(NotOfPeer(cs, p), p') == OfPeer(cs, p')
  {
    if cs != [] {
      OfOtherPeer(cs[1..], p, p');
      if cs[0].peer != p {
        assert ([cs[0]] + NotOfPeer(cs[1..], p))[1..] == NotOfPeer(cs[1..], p);
      } else {
        assert [] + NotOfPeer(cs[1..], p) == NotOfPeer(cs[1..], p);
      }
    }
  }

  /** Everything listed or recorded about another peer is as it was. */
  lemma DisconnectIsolated(b: Books, p: Peer, p': Peer)
    requires p' != p
    ensures var b' := Disconnected(b, p);
      && ListedIds(b'.audio, p') == ListedIds(b.audio, p') && ListedIds(b'.video, p') == ListedIds(b.video, p')
      && DataId(b'.movement, p') == DataId(b.movement, p') && DataId(b'.events, p') == DataId(b.events, p')
      && OfPeer(b'.audioConsumed, p') == OfPeer(b.audioConsumed, p')
      && OfPeer(b'.videoConsumed, p') == OfPeer(b.videoConsumed, p')
      && OfPeer(b'.movementConsumed, p') == OfPeer(b.movementConsumed, p')
      && OfPeer(b'.eventConsumed, p') == OfPeer(b.eventConsumed, p')
      && (p' in b.transports ==> p' in b'.transports && b'.transports[p'] == b.transports[p'])
  {
    OfOtherPeer(b.audioConsumed, p, p');
    OfOtherPeer(b.videoConsumed, p, p');
    OfOtherPeer(b.movementConsumed, p, p');
    OfOtherPeer(b.eventConsumed, p, p');
  }

  /** And it all still exists: producers and consumers that go belong to the peer that went. */
  lemma DisconnectTakesItsOwn(b: Books, p: Peer, p': Peer, next: ConsumerId)
    requires Balanced(b, next) && p' != p
    ensures var b' := Disconnected(b, p);
      && ListedIds(b.audio, p') + ListedIds(b.video, p') <= b'.producers
      && DataId(b.movement, p') + DataId(b.events, p') <= b'.dataProducers
      && Ids(OfPeer(b.audioConsumed, p')) + Ids(OfPeer(b.videoConsumed, p')) <= b'.consumers
      && Ids(OfPeer(b.movementConsumed, p')) + Ids(OfPeer(b.eventConsumed, p')) <= b'.dataConsumers
  {
    Audit(b, next);
    OthersStay(b.audioConsumed, b.videoConsumed, b.consumers, next, p, p');
    OthersStay(b.movementConsumed, b.eventConsumed, b.dataConsumers, next, p, p');
    OwnProducers(b.audio, b.video, b.producers, p, p');
    OwnDataProducers(b.movement, b.events, b.dataProducers, p, p');
  }

  lemma OwnProducers(audio: map<Peer, seq<ProducerId>>, video: map<Peer, seq<ProducerId>>, producers: set<ProducerId>,
      p: Peer, p': Peer)
    requires ProducersAgree(audio, video, producers) && p' != p
    ensures ListedIds(audio, p') + ListedIds(video, p') <= producers - ListedIds(audio, p) - ListedIds(video, p)
  {
  }

  lemma OwnDataProducers(movement: map<Peer, ProducerId>, events: map<Peer, ProducerId>, producers: set<ProducerId>,
      p: Peer, p': Peer)
    requires DataProducersAgree(movement, events, producers) && p' != p
    ensures DataId(movement, p') + DataId(events, p') <= producers - DataId(movement, p) - DataId(events, p)
  {
  }

  lemma OthersStay(a: seq<Consumed>, v: seq<Consumed>, consumers: set<ConsumerId>, next: ConsumerId, p: Peer, p': Peer)
    requires ConsumersAgree(a, v, consumers, next) && p' != p
    ensures Ids(OfPeer(a, p')) + Ids(OfPeer(v, p')) <= consumers - Ids(OfPeer(v, p)) - Ids(OfPeer(a, p))
  {
    OwnIds(a, p, p');
    OwnIds(v, p, p');
    forall c | c in a ensures c.consumer in Ids(a) {
    }
    assert Ids(OfPeer(a, p)) <= Ids(a) && Ids(OfPeer(v, p)) <= Ids(v);
  }

  lemma OwnIds(cs: seq<Consumed>, p: Peer, p': Peer)
    requires DistinctIds(cs) && p != p'
    ensures Ids(OfPeer(cs, p)) !! Ids(OfPeer(cs, p')) && Ids(OfPeer(cs, p')) <= Ids(cs)
  {
    forall c, d | c in OfPeer(cs, p) && d in OfPeer(cs, p') ensures c.consumer != d.consumer {
      var i :| 0 <= i < |cs| && cs[i] == c;
      var j :| 0 <= j < |cs| && cs[j] == d;
    }
  }

  predicate OnWorker(b: Books, p: Peer, w: WorkerId) {
    && p in b.transports && b.transports[p] in b.routerOf && b.routerOf[b.transports[p]] in b.workerOf
    && b.workerOf[b.routerOf[b.transports[p]]] == w
  }

  /** A disconnect takes one off the load of the worker that the peer's transport is on, and nothing off
      any other. */
  lemma DisconnectUnloads(b: Books, p: Peer, w: WorkerId)
    ensures var loads := Disconnected(b, p).loads;
      && (w in loads <==> w in b.loads)
      && (w in loads ==> loads[w] == b.loads[w] - if OnWorker(b, p, w) && b.loads[w] > 0 then 1 else 0)
  {
  }

  lemma {:induction false} WithoutTwice(cs: seq<Consumed>, p: Peer)
    ensures NotOfPeer(NotOfPeer(cs, p), p) == NotOfPeer(cs, p) && OfPeer(NotOfPeer(cs, p), p) == []
  {
    if cs != [] {
      WithoutTwice(cs[1..], p);
      var rest := NotOfPeer(cs[1..], p);
      assert ([cs[0]] + rest)[1..] == rest && [] + rest == rest;
    }
  }

  /** And it does all that it does once: a second one changes nothing. */
  lemma DisconnectTwice(b: Books, p: Peer)
    ensures Disconnected(Disconnected(b, p), p) == Disconnected(b, p)
  {
    WithoutTwice(b.audioConsumed, p);
    WithoutTwice(b.videoConsumed, p);
    WithoutTwice(b.movementConsumed, p);
    WithoutTwice(b.eventConsumed, p);
    var b' := Disconnected(b, p);
    assert Gone(b'.audioConsumed, p) && Gone(b'.videoConsumed, p);
    assert Gone(b'.movementConsumed, p) && Gone(b'.eventConsumed, p);
    NothingToDo(b', p);
  }

  ghost predicate Gone(cs: seq<Consumed>, p: Peer) {
    NotOfPeer(cs, p) == cs && OfPeer(cs, p) == []
  }

  lemma NothingToDo(b: Books, p: Peer)
    requires p !in b.audio && p !in b.video && p !in b.movement && p !in b.events && p !in b.transports
    requires Gone(b.audioConsumed, p) && Gone(b.videoConsumed, p)
    requires Gone(b.movementConsumed, p) && Gone(b.eventConsumed, p)
    ensures Disconnected(b, p) == b
  {
    assert Ids([]) == {};
    assert b.audio - {p} == b.audio && b.video - {p} == b.video;
    assert b.movement - {p} == b.movement && b.events - {p} == b.events && b.transports - {p} == b.transports;
  }

  // ---------------------------------------------------------------- movement is not guarded

  /** The producers that a request for movement comes to: those of the peers asked for, in order, as
      far as the first for which the media library fails. */
  function Wanted(q: Request, producers: map<Peer, ProducerId>, peers: seq<Peer>): (ids: seq<ProducerId>)
    decreases |peers|
  {
    if peers == [] then []
    else
      var before := Wanted(q, producers, peers[..|peers| - 1]);
      var peer := peers[|peers| - 1];
      if !q.reachable || peer !in producers || Fails(q, producers, peers) then before else before + [producers[peer]]
  }

  predicate Fails(q: Request, producers: map<Peer, ProducerId>, peers: seq<Peer>) {
    q.reachable && exists p :: p in peers && p in producers && producers[p] in q.fails
  }

  lemma FailsNext(q: Request, producers: map<Peer, ProducerId>, peers: seq<Peer>)
    requires peers != []
    ensures var last := peers[|peers| - 1];
      Fails(q, producers, peers) <==>
        Fails(q, producers, peers[..|peers| - 1]) || (q.reachable && last in producers && producers[last] in q.fails)
  {
    assert peers == peers[..|peers| - 1] + [peers[|peers| - 1]];
  }

  lemma {:induction false} FailsIff(q: Request, s: DataProgress, producers: map<Peer, ProducerId>, peers: seq<Peer>)
    requires s.ok
    ensures AfterAllData(q, s, producers, peers).ok <==> !Fails(q, producers, peers)
    decreases |peers|
  {
    if peers != [] {
      var n := |peers| - 1;
      FailsIff(q, s, producers, peers[..n]);
      FailsNext(q, producers, peers);
    }
  }

  ghost predicate RecordsOf(more: seq<Consumed>, p: Peer, ids: seq<ProducerId>) {
    |more| == |ids| && forall k :: 0 <= k < |more| ==> more[k].peer == p && more[k].producer == ids[k]
  }

  /** The records of a request are those of the producers it comes to, in order. */
  lemma {:induction false} WantedRecorded(q: Request, s: DataProgress, producers: map<Peer, ProducerId>,
      peers: seq<Peer>)
    returns (more: seq<Consumed>)
    requires s.ok
    ensures AfterAllData(q, s, producers, peers).records == s.records + more
    ensures RecordsOf(more, q.consumer, Wanted(q, producers, peers))
    decreases |peers|
  {
    more := [];
    if peers != [] {
      var n := |peers| - 1;
      more := WantedRecorded(q, s, producers, peers[..n]);
      FailsIff(q, s, producers, peers[..n]);
      FailsNext(q, producers, peers);
      var t, u := AfterAllData(q, s, producers, peers[..n]), AfterAllData(q, s, producers, peers);
      if u.records != t.records {
        more := more + [Consumed(q.consumer, producers[peers[n]], t.next)];
        assert u.records == s.records + more;
      }
    }
  }

  /** A request for movement keeps the pairs distinct exactly if the producers that it comes to are
      distinct and the consumer had none of them before: there is no check like the one for audio
      and video. */
  lemma MovementOnceIff(q: Request, s: DataProgress, producers: map<Peer, ProducerId>, peers: seq<Peer>)
    requires s.ok && OncePerPair(s.records)
    ensures var ids := Wanted(q, producers, peers);
      OncePerPair(AfterAllData(q, s, producers, peers).records) <==>
        Distinct(ids) && forall x :: x in ids ==> !Already(s.records, q.consumer, x)
  {
    var more := WantedRecorded(q, s, producers, peers);
    PairsIff(s.records, more, q.consumer, Wanted(q, producers, peers));
  }

  lemma PairsIff(before: seq<Consumed>, more: seq<Consumed>, p: Peer, ids: seq<ProducerId>)
    requires OncePerPair(before) && RecordsOf(more, p, ids)
    ensures OncePerPair(before + more) <==> Distinct(ids) && forall x :: x in ids ==> !Already(before, p, x)
  {
    var n, after := |before|, before + more;
    if Distinct(ids) && forall x :: x in ids ==> !Already(before, p, x) {
      forall i, j | 0 <= i < j < |after|
        ensures after[i].peer != after[j].peer || after[i].producer != after[j].producer
      {
        if n <= j {
          assert after[j] == more[j - n] && ids[j - n] in ids;
          if i < n {
            assert before[i] in before;
          } else {
            assert after[i] == more[i - n];
          }
        }
      }
    } else if !Distinct(ids) {
      var j, k :| 0 <= j < k < |ids| && ids[j] == ids[k];
      assert after[n + j] == more[j] && after[n + k] == more[k];
    } else {
      var x :| x in ids && Already(before, p, x);
      var k :| 0 <= k < |ids| && ids[k] == x;
      var c :| c in before && c.peer == p && c.producer == x;
      var i :| 0 <= i < n && before[i] == c;
      assert after[i] == c && after[n + k] == more[k];
    }
  }

  /** Asked twice for the movement of peer 7, peer 8 consumes it twice; asked twice in one request,
      it consumes it twice and is told of one consumer only. */
  lemma MovementTwice()
    ensures var q := Request(8, true, {}, {});
      var t := AfterAllData(q, DataProgress([], {}, map[], 0, true), map[7 := 70], [7, 7]);
      && t.ok && t.records == [Consumed(8, 70, 0), Consumed(8, 70, 1)] && !OncePerPair(t.records)
      && t.news == map[7 := Consumed(8, 70, 1)]
  {
    var q, s := Request(8, true, {}, {}), DataProgress([], {}, map[], 0, true);
    assert [7, 7][..1] == [7] && [7][..0] == [];
    assert AfterAllData(q, s, map[7 := 70], []) == s;
    assert AfterAllData(q, s, map[7 := 70], [7]) == AfterData(q, s, map[7 := 70], 7);
    var t := AfterAllData(q, s, map[7 := 70], [7, 7]);
    assert t.records == [Consumed(8, 70, 0), Consumed(8, 70, 1)];
    assert t.records[0].peer == t.records[1].peer && t.records[0].producer == t.records[1].producer;
  }
}

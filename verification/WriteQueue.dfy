/** The queue in front of a server's connection.  `try_write` is a future that may be dropped at
    any point where it waits; what it keeps between polls is the queue and one flag. */
module WriteQueue {
  import opened Sfu
  import Codec

  type Message = Codec.Payload

  /** What the connection answers when it is asked to get ready, to take a message or to flush. */
  datatype Answer = Waiting | Failed | Refused | Done

  /** The queue, and what is known of the connection: the messages that it took, the ones that it
      refused, and how many of those it took were flushed. */
  datatype State = State(queue: seq<Message>, isFlush: bool, sent: seq<Message>, refused: seq<Message>, flushed: nat,
      pushed: seq<Message>)

  datatype Outcome = Pending | Broken

  const New := State([], false, [], [], 0, [])

  function Pushed(s: State, m: Message): State {
    s.(queue := s.queue + [m], pushed := s.pushed + [m])
  }

  /** One poll of `try_write`: it goes on until the connection has to wait, fails, or nothing is
      left to do.  `answers` are the connection's answers in order; after the last it waits. */
  function Polled(s: State, answers: seq<Answer>): (State, Outcome)
    decreases 2 * |s.queue| + if s.isFlush then 1 else 0
  {
    if !s.isFlush && s.queue == [] then (s, Pending)
    else
      var answer := if answers == [] then Waiting else answers[0];
      var rest := if answers == [] then [] else answers[1..];
      if answer.Waiting? then (s, Pending)
      else if s.isFlush then
        if answer.Done? then Polled(s.(isFlush := false, flushed := |s.sent|), rest) else (s, Broken)
      else
        var m := s.queue[0];
        match answer
        case Done => Polled(s.(queue := s.queue[1..], sent := s.sent + [m], isFlush := true), rest)
        case Refused => (s.(queue := s.queue[1..], refused := s.refused + [m]), Broken)
        case _ => (s, Broken)
  }

  class QueuedWrite {
    var queue: seq<Message>
    var isFlush: bool
    ghost var sent: seq<Message>
    ghost var refused: seq<Message>
    ghost var flushed: nat
    ghost var pushed: seq<Message>

    ghost function Now(): State
      reads this
    {
      State(queue, isFlush, sent, refused, flushed, pushed)
    }

    constructor ()
      ensures Now() == New
    {
      queue, isFlush := [], false;
      sent, refused, flushed, pushed := [], [], 0, [];
    }

    method Push(m: Message)
      modifies this
      ensures Now() == Pushed(old(Now()), m)
    {
      queue := queue + [m];
      pushed := pushed + [m];
    }

    method Pop() returns (m: Message)
      requires queue != []
      modifies this`queue
      ensures [m] + queue == old(queue)
    {
      m := queue[0];
      queue := queue[1..];
    }

    method TryWrite(answers: seq<Answer>) returns (outcome: Outcome)
      modifies this
      ensures (Now(), outcome) == Polled(old(Now()), answers)
    {
      var i := 0;
      while true
        invariant i <= |answers|
        invariant Polled(Now(), answers[i..]) == Polled(old(Now()), answers)
        decreases 2 * |queue| + if isFlush then 1 else 0
      {
        if !isFlush && queue == [] {
          return Pending;
        }
        var answer := if i < |answers| then answers[i] else Waiting;
        if answer.Waiting? {
          return Pending;
        }
        i := i + 1;
        if isFlush {
          if !answer.Done? {
            return Broken;
          }
          isFlush := false;
          flushed := |sent|;
        } else {
          if answer.Failed? {
            return Broken;
          }
          var m := Pop();
          if answer.Refused? {
            refused := refused + [m];
            return Broken;
          }
          sent := sent + [m];
          isFlush := true;
        }
      }
    }
  }

  // ---------------------------------------------------------------- conservation

  /** Nothing is lost or repeated or reordered, a message is refused only as the last thing that
      happens, and each message is flushed before the next one is sent. */
  ghost predicate Conserved(s: State, broken: bool) {
    && s.pushed == s.sent + s.refused + s.queue
    && |s.refused| <= 1 && (s.refused != [] ==> broken)
    && |s.sent| == s.flushed + if s.isFlush then 1 else 0
  }

  lemma PushConserves(s: State, m: Message)
    requires Conserved(s, false)
    ensures Conserved(Pushed(s, m), false)
  {
    assert (s.sent + s.refused + s.queue) + [m] == s.sent + s.refused + (s.queue + [m]);
  }

  lemma {:induction false} PollConserves(s: State, answers: seq<Answer>)
    requires Conserved(s, false)
    ensures Conserved(Polled(s, answers).0, Polled(s, answers).1.Broken?)
    decreases 2 * |s.queue| + if s.isFlush then 1 else 0
  {
    if s.isFlush {
      if answers != [] && answers[0].Done? {
        PollConserves(s.(isFlush := false, flushed := |s.sent|), answers[1..]);
      }
    } else if s.queue != [] {
      var m := s.queue[0];
      assert s.queue == [m] + s.queue[1..];
      if answers != [] && answers[0].Done? {
        PollConserves(s.(queue := s.queue[1..], sent := s.sent + [m], isFlush := true), answers[1..]);
      }
    }
  }

  /** Polling a future again where it waited, and dropping it and polling a new one, come to the
      same: the answers still to come decide, not the future. */
  lemma {:induction false} PollAgain(s: State, answers: seq<Answer>, more: seq<Answer>)
    requires Polled(s, answers).1.Pending? && Waiting !in answers
    ensures Polled(s, answers + more) == Polled(Polled(s, answers).0, more)
    decreases 2 * |s.queue| + if s.isFlush then 1 else 0
  {
    if answers == [] {
      assert answers + more == more;
    } else if s.isFlush || s.queue != [] {
      assert answers[0] in answers;
      assert (answers + more)[0] == answers[0] && (answers + more)[1..] == answers[1..] + more;
      if s.isFlush {
        PollAgain(s.(isFlush := false, flushed := |s.sent|), answers[1..], more);
      } else {
        PollAgain(s.(queue := s.queue[1..], sent := s.sent + [s.queue[0]], isFlush := true), answers[1..], more);
      }
    }
  }

  // ---------------------------------------------------------------- progress

  /** The answers until nothing is left to do: two for each message, one for a pending flush. */
  function Work(s: State): nat {
    2 * |s.queue| + if s.isFlush then 1 else 0
  }

  /** The first `k` answers let the writer go on. */
  ghost predicate GoesOn(answers: seq<Answer>, k: nat) {
    k <= |answers| && forall j :: 0 <= j < k ==> answers[j].Done?
  }

  function AnswerAt(answers: seq<Answer>, k: nat): Answer {
    if k < |answers| then answers[k] else Waiting
  }

  /** How many answers let the writer go on before one does not. */
  function Good(answers: seq<Answer>): (k: nat)
    ensures GoesOn(answers, k) && !AnswerAt(answers, k).Done?
  {
    if answers == [] || !answers[0].Done? then 0 else 1 + Good(answers[1..])
  }

  /** How many messages the connection has taken after `k` good answers. */
  function Taken(s: State, k: nat): nat {
    if s.isFlush then k / 2 else (k + 1) / 2
  }

  /** `t` has sent the first `n` messages of `s` and not the ones after. */
  ghost predicate Sends(s: State, t: State, n: nat) {
    n <= |s.queue| && t.sent == s.sent + s.queue[..n] && t.pushed == s.pushed
  }

  lemma TakesOne(s: State, t: State)
    requires Conserved(s, false) && !s.isFlush && s.queue != []
    requires t == s.(queue := s.queue[1..], sent := s.sent + [s.queue[0]], isFlush := true)
    ensures Conserved(t, false)
  {
    assert s.queue == [s.queue[0]] + t.queue;
    assert s.sent + [] + s.queue == t.sent + [] + t.queue;
  }

  lemma SendsMore(s: State, t: State, u: State, n: nat)
    requires !s.isFlush && s.queue != [] && Sends(t, u, n)
    requires t == s.(queue := s.queue[1..], sent := s.sent + [s.queue[0]], isFlush := true)
    ensures Sends(s, u, n + 1)
  {
    assert s.queue == [s.queue[0]] + t.queue;
    assert s.queue[..n + 1] == [s.queue[0]] + t.queue[..n];
    assert s.sent + s.queue[..n + 1] == s.sent + [s.queue[0]] + t.queue[..n];
  }

  /** Where the work outlasts the good answers, as many messages were taken as these allow, in order,
      the last of them not flushed if their number is odd; the answer after them decides the outcome,
      and the next message is lost exactly if it refuses it. */
  lemma {:induction false} PollStops(s: State, answers: seq<Answer>, k: nat)
    requires Conserved(s, false) && GoesOn(answers, k) && k < Work(s) && !AnswerAt(answers, k).Done?
    ensures var (t, outcome), n, next := Polled(s, answers), Taken(s, k), AnswerAt(answers, k);
      && (outcome == Pending <==> next == Waiting)
      && (t.isFlush <==> (if s.isFlush then k % 2 == 0 else k % 2 == 1))
      && t.flushed == |t.sent| - (if t.isFlush then 1 else 0)
      && Sends(s, t, n)
      && if next.Refused? && !t.isFlush
         then n < |s.queue| && t.refused == s.refused + [s.queue[n]] && t.queue == s.queue[n + 1..]
         else t.refused == s.refused && t.queue == s.queue[n..]
    decreases Work(s)
  {
    if k > 0 {
      var s' := if s.isFlush then s.(isFlush := false, flushed := |s.sent|)
                else s.(queue := s.queue[1..], sent := s.sent + [s.queue[0]], isFlush := true);
      assert Polled(s, answers) == Polled(s', answers[1..]);
      if !s.isFlush {
        TakesOne(s, s');
      }
      PollStops(s', answers[1..], k - 1);
      assert AnswerAt(answers[1..], k - 1) == AnswerAt(answers, k);
      if !s.isFlush {
        SendsMore(s, s', Polled(s', answers[1..]).0, Taken(s', k - 1));
      }
    }
  }

  /** With an answer for each thing to do, nothing is left to do: all that was queued is sent, in order,
      and flushed. */
  lemma {:induction false} PollFinishes(s: State, answers: seq<Answer>)
    requires GoesOn(answers, Work(s))
    ensures var (t, outcome) := Polled(s, answers);
      && outcome == Pending && t.queue == [] && !t.isFlush && t.sent == s.sent + s.queue
      && t.refused == s.refused && t.pushed == s.pushed
      && (Work(s) > 0 ==> t.flushed == |t.sent|)
    decreases Work(s)
  {
    if s.isFlush {
      PollFinishes(s.(isFlush := false, flushed := |s.sent|), answers[1..]);
    } else if s.queue != [] {
      var s' := s.(queue := s.queue[1..], sent := s.sent + [s.queue[0]], isFlush := true);
      PollFinishes(s', answers[1..]);
      assert s.sent + s.queue == s'.sent + s'.queue;
    }
  }

  /** A poll waits exactly if nothing is left to do or the connection has to wait; and nothing is left
      to do exactly if there were as many good answers as things to do. */
  lemma PollWaitsIff(s: State, answers: seq<Answer>)
    requires Conserved(s, false)
    ensures var (t, outcome) := Polled(s, answers);
      && (outcome == Pending <==> (t.queue == [] && !t.isFlush && t.refused == s.refused)
                                  || AnswerAt(answers, Good(answers)) == Waiting)
      && (outcome == Pending && t.queue == [] && !t.isFlush <==> Work(s) <= Good(answers))
  {
    if Work(s) <= Good(answers) {
      PollFinishes(s, answers);
    } else {
      PollStops(s, answers, Good(answers));
    }
  }

  // ---------------------------------------------------------------- whole runs

  datatype Event = Push(message: Message) | Poll(answers: seq<Answer>)

  /** The events of one connection in order, until it breaks. */
  function After(s: State, events: seq<Event>): (State, bool) {
    if events == [] then (s, false)
    else
      var (s', broken) := After(s, events[..|events| - 1]);
      if broken then (s', true)
      else match events[|events| - 1]
        case Push(m) => (Pushed(s', m), false)
        case Poll(answers) => var (s'', o) := Polled(s', answers); (s'', o.Broken?)
  }

  lemma {:induction false} RunConserves(events: seq<Event>)
    ensures Conserved(After(New, events).0, After(New, events).1)
  {
    if events != [] {
      var before := events[..|events| - 1];
      RunConserves(before);
      if !After(New, before).1 {
        match events[|events| - 1]
        case Push(m) => PushConserves(After(New, before).0, m);
        case Poll(answers) => PollConserves(After(New, before).0, answers);
      }
    }
  }

  // ---------------------------------------------------------------- end to end

  lemma AfterPoll(events: seq<Event>, answers: seq<Answer>)
    requires !After(New, events).1
    ensures var (t, outcome) := Polled(After(New, events).0, answers);
      After(New, events + [Poll(answers)]) == (t, outcome.Broken?)
  {
    assert (events + [Poll(answers)])[..|events|] == events;
  }

  /** Whatever happened before, one poll with good answers sends and flushes all that was pushed. */
  lemma AllIsSent(events: seq<Event>, answers: seq<Answer>)
    requires !After(New, events).1 && Work(After(New, events).0) <= Good(answers)
    ensures var (t, broken) := After(New, events + [Poll(answers)]);
      !broken && t.sent == t.pushed == After(New, events).0.pushed && t.flushed == |t.sent|
  {
    RunConserves(events);
    AfterPoll(events, answers);
    ConservedIsSent(After(New, events).0, answers);
  }

  lemma ConservedIsSent(s: State, answers: seq<Answer>)
    requires Conserved(s, false) && Work(s) <= Good(answers)
    ensures var (t, outcome) := Polled(s, answers);
      outcome == Pending && t.sent == t.pushed == s.pushed && t.flushed == |t.sent|
  {
    PollFinishes(s, answers);
    assert s.sent + [] + s.queue == s.sent + s.queue;
    if Work(s) == 0 {
      assert Polled(s, answers) == (s, Pending);
    }
  }

  /** When all bytes of the messages that the connection took have arrived, the peer has decoded these
      messages; so exactly if nothing is queued or was refused, it has decoded all that was pushed. */
  lemma PeerDecodesAllIff(events: seq<Event>, valid: Message -> bool, chunks: seq<seq<Codec.byte>>)
    requires forall m :: m in After(New, events).0.pushed ==> Codec.Sendable(valid, m)
    requires Codec.Concat(chunks) == Codec.EncodedAll(After(New, events).0.sent)
    ensures var s := After(New, events).0;
      Codec.Feed(valid, Codec.Start, chunks).0 == s.pushed <==> s.queue == [] && s.refused == []
  {
    var s := After(New, events).0;
    RunConserves(events);
    assert s.pushed == s.sent + (s.refused + s.queue);
    forall m | m in s.sent ensures Codec.Sendable(valid, m) {
      assert m in s.pushed;
    }
    Codec.FramingRoundTrip(valid, s.sent, chunks);
    assert |s.pushed| == |s.sent| + |s.refused| + |s.queue|;
  }

  /** So after a poll with good answers the peer decodes exactly what was pushed. */
  lemma PeerDecodesAll(events: seq<Event>, answers: seq<Answer>, valid: Message -> bool, chunks: seq<seq<Codec.byte>>)
    requires !After(New, events).1 && Work(After(New, events).0) <= Good(answers)
    requires forall m :: m in After(New, events).0.pushed ==> Codec.Sendable(valid, m)
    requires Codec.Concat(chunks) == Codec.EncodedAll(After(New, events + [Poll(answers)]).0.sent)
    ensures Codec.Feed(valid, Codec.Start, chunks) == (After(New, events).0.pushed, Codec.Start)
  {
    AllIsSent(events, answers);
    Codec.FramingRoundTrip(valid, After(New, events).0.pushed, chunks);
  }

  /** Whenever the connection stops, and however the bytes of the messages it took arrive, the peer
      decodes a prefix of what was pushed. */
  lemma PeerDecodesPrefix(events: seq<Event>, valid: Message -> bool, chunks: seq<seq<Codec.byte>>,
      rest: seq<Codec.byte>)
    requires forall m :: m in After(New, events).0.pushed ==> Codec.Sendable(valid, m)
    requires Codec.Concat(chunks) + rest == Codec.EncodedAll(After(New, events).0.sent)
    ensures Codec.Feed(valid, Codec.Start, chunks).0 <= After(New, events).0.pushed
  {
    var s := After(New, events).0;
    RunConserves(events);
    assert s.pushed == s.sent + (s.refused + s.queue);
    forall m | m in s.sent ensures Codec.Sendable(valid, m) {
      assert m in s.pushed;
    }
    Codec.PrefixDecodes(valid, s.sent, chunks, rest);
  }
}
